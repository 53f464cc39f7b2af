// Which events a subscriber gets, by the IDs its filter names: no other service's
// and no other notification's, and none left out.

module Filters {
  import opened Domain
  import opened EventHub
  import FanOut

  // ----- publishes one after another -----

  // Whoever has channel c asked for what filter says.
  ghost predicate Owned<C>(v: Board<C>, c: C, filter: Filter) {
    c in v.inboxes && forall id :: id in v.subs && v.subs[id].channel == c ==> v.subs[id].filter == filter
  }

  lemma OwnedStays<C>(v: Board<C>, op: Op<C>, c: C, filter: Filter)
    requires Owned(v, c, filter) && Distinct(v, op)
    ensures Owned(Apply(v, op), c, filter)
  {
  }

  lemma {:induction false} GotIsWanted<C>(v: Board<C>, ops: seq<Op<C>>, c: C, filter: Filter)
    requires Owned(v, c, filter) && AllDistinct(v, ops)
    ensures forall e :: e in Got(v, ops, c) ==>
      && (filter.notificationId != NO_ID ==> e.notificationId == filter.notificationId)
      && (filter.serviceId != NO_ID ==> e.serviceId == filter.serviceId)
    decreases |ops|
  {
    if ops != [] {
      OwnedStays(v, ops[0], c, filter);
      hide Apply;
      GotIsWanted(Apply(v, ops[0]), ops[1..], c, filter);
    }
  }

  // Over any run, a subscriber has seen no event but those of the notification
  // and of the service its filter names.
  lemma SubscriberSeesItsOwn<C>(v: Board<C>, id: Id, filter: Filter, c: C, capacity: nat, ops: seq<Op<C>>)
    requires Ok(v) && id !in v.subs && c !in v.inboxes
    requires AllDistinct(Subscribed(v, id, filter, c, capacity), ops)
    ensures var end := Run(Subscribed(v, id, filter, c, capacity), ops);
      && c in end.inboxes
      && forall e :: e in end.inboxes[c].consumed + end.inboxes[c].buffer ==>
           && (filter.notificationId != NO_ID ==> e.notificationId == filter.notificationId)
           && (filter.serviceId != NO_ID ==> e.serviceId == filter.serviceId)
  {
    var start := Subscribed(v, id, filter, c, capacity);
    OkKept(v, SubscribeOp(id, filter, c, capacity));
    RunSeen(start, ops, c);
    GotIsWanted(start, ops, c, filter);
    hide Run, Got;
    assert [] + Got(start, ops, c) == Got(start, ops, c);
  }

  // The publishes before the subscriber leaves whose event carries every ID the
  // filter names.
  function Wanted<C(==)>(ops: seq<Op<C>>, id: Id, filter: Filter): seq<Event>
    decreases |ops|
  {
    if ops == [] || ops[0] == UnsubscribeOp(id) then []
    else
      var here := if ops[0].PublishOp? && filter.notificationId in {NO_ID, ops[0].event.notificationId}
                     && filter.serviceId in {NO_ID, ops[0].event.serviceId}
                  then [ops[0].event] else [];
      here + Wanted(ops[1..], id, filter)
  }

  ghost predicate Holds<C>(v: Board<C>, id: Id, filter: Filter, c: C) {
    id in v.subs && v.subs[id] == Sub(filter, c)
  }

  ghost predicate Gone<C>(v: Board<C>, c: C) {
    c in v.inboxes && forall id :: id in v.subs ==> v.subs[id].channel != c
  }

  lemma {:induction false} NothingMeantOnceGone<C>(v: Board<C>, ops: seq<Op<C>>, c: C)
    requires Gone(v, c) && AllDistinct(v, ops)
    ensures Meant(v, ops, c) == []
    decreases |ops|
  {
    if ops != [] {
      assert Gone(Apply(v, ops[0]), c);
      hide Apply;
      NothingMeantOnceGone(Apply(v, ops[0]), ops[1..], c);
    }
  }

  lemma {:induction false} MeantIsWanted<C>(v: Board<C>, ops: seq<Op<C>>, id: Id, filter: Filter, c: C)
    requires Ok(v) && AllDistinct(v, ops) && Holds(v, id, filter, c)
    ensures Meant(v, ops, c) == Wanted(ops, id, filter)
    decreases |ops|
  {
    if ops != [] {
      var v1 := Apply(v, ops[0]);
      OkKept(v, ops[0]);
      if ops[0] == UnsubscribeOp(id) {
        assert Gone(v1, c);
        NothingMeantOnceGone(v1, ops[1..], c);
      } else {
        HoldsOn(v, ops[0], id, filter, c);
        MeantIsWanted(v1, ops[1..], id, filter, c);
      }
    }
  }

  lemma HoldsOn<C>(v: Board<C>, op: Op<C>, id: Id, filter: Filter, c: C)
    requires Ok(v) && Distinct(v, op) && Holds(v, id, filter, c) && op != UnsubscribeOp(id)
    ensures Holds(Apply(v, op), id, filter, c)
    ensures op.PublishOp? ==>
      (Receives(v, c, op.event) <==>
        (filter.notificationId in {NO_ID, op.event.notificationId} && filter.serviceId in {NO_ID, op.event.serviceId}))
  {
  }

  // What a subscriber is meant to get is a matter of the script alone.
  lemma MeantFromSubscription<C>(v: Board<C>, id: Id, filter: Filter, c: C, capacity: nat, ops: seq<Op<C>>)
    requires Ok(v) && id !in v.subs && c !in v.inboxes
    requires AllDistinct(Subscribed(v, id, filter, c, capacity), ops)
    ensures Meant(Subscribed(v, id, filter, c, capacity), ops, c) == Wanted(ops, id, filter)
  {
    OkKept(v, SubscribeOp(id, filter, c, capacity));
    MeantIsWanted(Subscribed(v, id, filter, c, capacity), ops, id, filter, c);
  }

  // A channel is closed by its subscriber's leaving, by nothing before it, and
  // for good: after any run it is closed exactly if the script has that.
  lemma ClosedExactlyByLeaving<C>(v: Board<C>, id: Id, filter: Filter, c: C, capacity: nat, ops: seq<Op<C>>)
    requires Ok(v) && id !in v.subs && c !in v.inboxes
    requires AllDistinct(Subscribed(v, id, filter, c, capacity), ops)
    ensures var end := Run(Subscribed(v, id, filter, c, capacity), ops);
      c in end.inboxes && (end.inboxes[c].closed <==> UnsubscribeOp(id) in ops)
  {
    OkKept(v, SubscribeOp(id, filter, c, capacity));
    ClosedByLeaving(Subscribed(v, id, filter, c, capacity), ops, id, filter, c);
  }

  lemma {:induction false} ClosedByLeaving<C>(v: Board<C>, ops: seq<Op<C>>, id: Id, filter: Filter, c: C)
    requires Ok(v) && AllDistinct(v, ops) && Holds(v, id, filter, c)
    ensures var end := Run(v, ops);
      c in end.inboxes && (end.inboxes[c].closed <==> UnsubscribeOp(id) in ops)
    decreases |ops|
  {
    if ops != [] {
      var v1 := Apply(v, ops[0]);
      OkKept(v, ops[0]);
      assert Run(v, ops) == Run(v1, ops[1..]);
      if ops[0] == UnsubscribeOp(id) {
        StaysClosed(v1, ops[1..], c);
      } else {
        HoldsOn(v, ops[0], id, filter, c);
        ClosedByLeaving(v1, ops[1..], id, filter, c);
        assert UnsubscribeOp(id) in ops <==> UnsubscribeOp(id) in ops[1..];
      }
    }
  }

  lemma {:induction false} StaysClosed<C>(v: Board<C>, ops: seq<Op<C>>, c: C)
    requires AllDistinct(v, ops) && c in v.inboxes && v.inboxes[c].closed
    ensures c in Run(v, ops).inboxes && Run(v, ops).inboxes[c].closed
    decreases |ops|
  {
    if ops != [] {
      StaysClosed(Apply(v, ops[0]), ops[1..], c);
    }
  }

  // ----- publishes that overlap -----

  lemma OwnedOnFloor<C>(v: FanOut.Floor<C>, m: FanOut.Move<C>, c: C, filter: Filter)
    requires Owned(v.board, c, filter) && (m.Join? ==> m.id !in v.board.subs && m.channel !in v.board.inboxes)
    ensures Owned(FanOut.Moved(v, m).board, c, filter)
  {
  }

  lemma {:induction false} KeptIsWanted<C>(v: FanOut.Floor<C>, moves: seq<FanOut.Move<C>>, c: C, filter: Filter)
    requires Owned(v.board, c, filter) && FanOut.AllNew(v, moves)
    ensures forall e :: e in FanOut.Kept(v, moves, c) ==>
      && (filter.notificationId != NO_ID ==> e.notificationId == filter.notificationId)
      && (filter.serviceId != NO_ID ==> e.serviceId == filter.serviceId)
    decreases |moves|
  {
    if moves != [] {
      OwnedOnFloor(v, moves[0], c, filter);
      hide FanOut.Moved;
      KeptIsWanted(FanOut.Moved(v, moves[0]), moves[1..], c, filter);
    }
  }

  // The same as SubscriberSeesItsOwn when publishes overlap.
  lemma SubscriberIsSentItsOwn<C>(v: FanOut.Floor<C>, id: Id, filter: Filter, c: C, capacity: nat,
                                  moves: seq<FanOut.Move<C>>)
    requires FanOut.Sound(v) && v.active == map[] && id !in v.board.subs && c !in v.board.inboxes
    requires FanOut.AllNew(FanOut.Moved(v, FanOut.Join(id, filter, c, capacity)), moves)
    ensures var end := FanOut.Went(FanOut.Moved(v, FanOut.Join(id, filter, c, capacity)), moves).board;
      && c in end.inboxes
      && forall e :: e in end.inboxes[c].consumed + end.inboxes[c].buffer ==>
           && (filter.notificationId != NO_ID ==> e.notificationId == filter.notificationId)
           && (filter.serviceId != NO_ID ==> e.serviceId == filter.serviceId)
  {
    hide FanOut.Went, FanOut.Kept, FanOut.Moved, FanOut.Sound, FanOut.AllNew, Owned;
    var start := FanOut.Moved(v, FanOut.Join(id, filter, c, capacity));
    FanOut.Joined(v, id, filter, c, capacity);
    OwnedOnceJoined(v, id, filter, c, capacity);
    FanOut.RunKeeps(start, moves, c);
    KeptIsWanted(start, moves, c, filter);
    assert [] + FanOut.Kept(start, moves, c) == FanOut.Kept(start, moves, c);
  }

  lemma OwnedOnceJoined<C>(v: FanOut.Floor<C>, id: Id, filter: Filter, c: C, capacity: nat)
    requires FanOut.Sound(v) && v.active == map[] && id !in v.board.subs && c !in v.board.inboxes
    ensures Owned(FanOut.Moved(v, FanOut.Join(id, filter, c, capacity)).board, c, filter)
  {
  }

  lemma {:induction false} BegunConcat<C>(v: FanOut.Floor<C>, a: seq<FanOut.Move<C>>, b: seq<FanOut.Move<C>>, c: C)
    ensures FanOut.Begun(v, a + b, c) == FanOut.Begun(v, a, c) + FanOut.Begun(FanOut.Went(v, a), b, c)
    decreases |a|
  {
    hide FanOut.Moved, Receives;
    if a == [] {
      assert a + b == b;
    } else {
      assert (a + b)[0] == a[0] && (a + b)[1..] == a[1..] + b;
      BegunConcat(FanOut.Moved(v, a[0]), a[1..], b, c);
    }
  }

  // Nothing is left out: a publish that begins while a subscriber is there, of an
  // event with every ID the subscriber's filter names, is sent to it by the time
  // no publish is under way, and is among what it saw if its buffer never was
  // full.
  lemma WantedIsSent<C>(v: FanOut.Floor<C>, id: Id, filter: Filter, c: C, capacity: nat,
                        a: seq<FanOut.Move<C>>, p: Id, e: Event, b: seq<FanOut.Move<C>>)
    requires FanOut.Sound(v) && v.active == map[] && id !in v.board.subs && c !in v.board.inboxes
    requires filter.notificationId in {NO_ID, e.notificationId} && filter.serviceId in {NO_ID, e.serviceId}
    requires var start := FanOut.Moved(v, FanOut.Join(id, filter, c, capacity));
      var mid := FanOut.Went(start, a);
      && FanOut.AllNew(start, a + ([FanOut.Begin(p, e)] + b))
      && Holds(mid.board, id, filter, c) && p !in mid.active
    ensures var start, moves := FanOut.Moved(v, FanOut.Join(id, filter, c, capacity)), a + ([FanOut.Begin(p, e)] + b);
      var end := FanOut.Went(start, moves);
      && FanOut.Note(p, e) in FanOut.Begun(start, moves, c)
      && (end.active == map[] ==> FanOut.Note(p, e) in FanOut.Offered(start, moves, c))
      && (end.active == map[] && FanOut.AlwaysRoom(start, moves, c) ==>
            c in end.board.inboxes && e in end.board.inboxes[c].consumed + end.board.inboxes[c].buffer)
  {
    var start, rest := FanOut.Moved(v, FanOut.Join(id, filter, c, capacity)), [FanOut.Begin(p, e)] + b;
    var mid := FanOut.Went(start, a);
    hide FanOut.Went, FanOut.Begun, FanOut.Offered, FanOut.AlwaysRoom, FanOut.Moved, FanOut.Sound, FanOut.AllNew;
    BegunConcat(start, a, rest, c);
    BeginIsMeant(mid, id, filter, c, p, e, b);
    FanOut.SubscriberIsSent(v, id, filter, c, capacity, a + rest);
    hide Holds;
    var offered := FanOut.Offered(start, a + rest, c);
    if FanOut.Went(start, a + rest).active == map[] {
      assert FanOut.Note(p, e) in multiset(FanOut.Begun(start, a + rest, c));
      assert FanOut.Note(p, e) in multiset(offered);
      var i :| 0 <= i < |offered| && offered[i] == FanOut.Note(p, e);
      assert FanOut.Events(offered)[i] == e;
    }
  }

  lemma BeginIsMeant<C>(v: FanOut.Floor<C>, id: Id, filter: Filter, c: C, p: Id, e: Event, later: seq<FanOut.Move<C>>)
    requires Holds(v.board, id, filter, c) && p !in v.active
    requires filter.notificationId in {NO_ID, e.notificationId} && filter.serviceId in {NO_ID, e.serviceId}
    ensures FanOut.Note(p, e) in FanOut.Begun(v, [FanOut.Begin(p, e)] + later, c)
  {
    assert Receives(v.board, c, e);
    assert FanOut.Note(p, e) == FanOut.Begun(v, [FanOut.Begin(p, e)] + later, c)[0];
  }
}
