// internal/events/hub.go under its read/write lock: publishes hold the lock for
// reading and overlap one another, send by send; Subscribe and Unsubscribe hold
// it for writing and wait until no publish is under way.

module FanOut {
  import opened Domain
  import opened EventHub

  // A publish under way, with the subscribers its range has yet to visit.
  datatype Publication = Publication(event: Event, todo: set<Id>)

  datatype Floor<C> = Floor(board: Board<C>, active: map<Id, Publication>)

  datatype Move<C> =
    | Join(id: Id, filter: Filter, channel: C, capacity: nat)
    | Leave(id: Id)
    | Begin(p: Id, event: Event)
    | Send(p: Id, id: Id)
    | End(p: Id)
    | Read(channel: C)

  predicate CanSend<C>(v: Floor<C>, p: Id, id: Id) {
    p in v.active && id in v.active[p].todo
  }

  ghost function Sent<C>(v: Floor<C>, p: Id, id: Id): Floor<C>
    requires CanSend(v, p, id)
  {
    var e := v.active[p].event;
    var board :=
      if id in v.board.subs && v.board.subs[id].channel in v.board.inboxes && Matches(v.board.subs[id].filter, e) then
        var c := v.board.subs[id].channel;
        v.board.(inboxes := v.board.inboxes[c := Offer(v.board.inboxes[c], e)])
      else v.board;
    Floor(board, v.active[p := Publication(e, v.active[p].todo - {id})])
  }

  // A move that has to wait for the lock, or is not there to be made, changes
  // nothing.
  ghost function Moved<C>(v: Floor<C>, m: Move<C>): Floor<C> {
    match m
    case Join(id, filter, channel, capacity) =>
      if v.active == map[] then v.(board := Subscribed(v.board, id, filter, channel, capacity)) else v
    case Leave(id) => if v.active == map[] then v.(board := Unsubscribed(v.board, id)) else v
    case Begin(p, event) =>
      if p !in v.active then v.(active := v.active[p := Publication(event, v.board.subs.Keys)]) else v
    case Send(p, id) => if CanSend(v, p, id) then Sent(v, p, id) else v
    case End(p) => if p in v.active && v.active[p].todo == {} then v.(active := v.active - {p}) else v
    case Read(channel) => v.(board := Taken(v.board, channel))
  }

  ghost function Went<C>(v: Floor<C>, moves: seq<Move<C>>): Floor<C>
    decreases |moves|
  {
    if moves == [] then v else Went(Moved(v, moves[0]), moves[1..])
  }

  ghost predicate AllNew<C>(v: Floor<C>, moves: seq<Move<C>>)
    decreases |moves|
  {
    moves != [] ==>
      && (moves[0].Join? ==> moves[0].id !in v.board.subs && moves[0].channel !in v.board.inboxes)
      && AllNew(Moved(v, moves[0]), moves[1..])
  }

  // ----- the invariant -----

  ghost predicate Sound<C>(v: Floor<C>) {
    && Ok(v.board)
    && forall p :: p in v.active ==> v.active[p].todo <= v.board.subs.Keys
  }

  lemma MoveSound<C>(v: Floor<C>, m: Move<C>)
    requires Sound(v) && (m.Join? ==> m.id !in v.board.subs && m.channel !in v.board.inboxes)
    ensures Sound(Moved(v, m))
  {
    match m
    case Join(id, filter, channel, capacity) => OkKept(v.board, SubscribeOp(id, filter, channel, capacity));
    case Leave(id) => OkKept(v.board, UnsubscribeOp(id));
    case Read(channel) => OkKept(v.board, TakeOp(channel));
    case _ =>
  }

  lemma {:induction false} RunSound<C>(v: Floor<C>, moves: seq<Move<C>>)
    requires Sound(v) && AllNew(v, moves)
    ensures Sound(Went(v, moves))
    decreases |moves|
  {
    if moves != [] {
      MoveSound(v, moves[0]);
      hide Sound, Moved;
      RunSound(Moved(v, moves[0]), moves[1..]);
    }
  }

  // In any run, whatever send comes next is on an open channel that belongs to
  // its subscriber alone.
  lemma NoSendOnClosed<C>(v: Floor<C>, moves: seq<Move<C>>, p: Id, id: Id)
    requires Sound(v) && AllNew(v, moves) && CanSend(Went(v, moves), p, id)
    ensures var board := Went(v, moves).board;
      && id in board.subs && board.subs[id].channel in board.inboxes
      && !board.inboxes[board.subs[id].channel].closed
      && forall other :: other in board.subs && board.subs[other].channel == board.subs[id].channel ==> other == id
  {
    RunSound(v, moves);
  }

  // ----- what a channel is sent, and what it takes in -----

  datatype Note = Note(p: Id, event: Event)

  // The send is on c.
  ghost predicate SendsOn<C>(v: Floor<C>, m: Move<C>, c: C) {
    && m.Send? && CanSend(v, m.p, m.id) && m.id in v.board.subs && v.board.subs[m.id].channel == c
    && Matches(v.board.subs[m.id].filter, v.active[m.p].event)
  }

  // The sends on c, in their order.
  ghost function Offered<C>(v: Floor<C>, moves: seq<Move<C>>, c: C): seq<Note>
    decreases |moves|
  {
    if moves == [] then []
    else (if SendsOn(v, moves[0], c) then [Note(moves[0].p, v.active[moves[0].p].event)] else [])
         + Offered(Moved(v, moves[0]), moves[1..], c)
  }

  // The publishes that began while a subscriber with channel c matched them, in
  // the order they began.
  ghost function Begun<C>(v: Floor<C>, moves: seq<Move<C>>, c: C): seq<Note>
    decreases |moves|
  {
    if moves == [] then []
    else (if moves[0].Begin? && moves[0].p !in v.active && Receives(v.board, c, moves[0].event)
          then [Note(moves[0].p, moves[0].event)] else [])
         + Begun(Moved(v, moves[0]), moves[1..], c)
  }

  function Events(notes: seq<Note>): seq<Event> {
    seq(|notes|, i requires 0 <= i < |notes| => notes[i].event)
  }

  // No send on c found its buffer full.
  ghost predicate AlwaysRoom<C>(v: Floor<C>, moves: seq<Move<C>>, c: C)
    decreases |moves|
  {
    moves != [] ==>
      && (SendsOn(v, moves[0], c) && c in v.board.inboxes ==> |v.board.inboxes[c].buffer| < v.board.inboxes[c].capacity)
      && AlwaysRoom(Moved(v, moves[0]), moves[1..], c)
  }

  // What the channel took in.
  ghost function Kept<C>(v: Floor<C>, moves: seq<Move<C>>, c: C): seq<Event>
    decreases |moves|
  {
    if moves == [] then []
    else
      var here := SendsOn(v, moves[0], c) && c in v.board.inboxes
                  && |v.board.inboxes[c].buffer| < v.board.inboxes[c].capacity;
      (if here then [v.active[moves[0].p].event] else []) + Kept(Moved(v, moves[0]), moves[1..], c)
  }

  lemma MoveSeen<C>(v: Floor<C>, m: Move<C>, c: C)
    requires Sound(v) && (m.Join? ==> m.id !in v.board.subs && m.channel !in v.board.inboxes) && c in v.board.inboxes
    ensures var after := Moved(v, m).board;
      var room := |v.board.inboxes[c].buffer| < v.board.inboxes[c].capacity;
      && c in after.inboxes && after.inboxes[c].capacity == v.board.inboxes[c].capacity
      && Seen(after.inboxes[c])
         == Seen(v.board.inboxes[c]) + if SendsOn(v, m, c) && room then [v.active[m.p].event] else []
  {
    var x := v.board.inboxes[c];
    assert Seen(x) + [] == Seen(x);
    match m
    case Join(id, filter, channel, capacity) => StepSeen(v.board, SubscribeOp(id, filter, channel, capacity), c);
    case Leave(id) => StepSeen(v.board, UnsubscribeOp(id), c);
    case Read(channel) => StepSeen(v.board, TakeOp(channel), c);
    case Send(p, id) =>
      if SendsOn(v, m, c) {
        assert x.consumed + (x.buffer + [v.active[p].event]) == (x.consumed + x.buffer) + [v.active[p].event];
      }
    case _ =>
  }

  lemma {:induction false} RunKeeps<C>(v: Floor<C>, moves: seq<Move<C>>, c: C)
    requires Sound(v) && AllNew(v, moves) && c in v.board.inboxes
    ensures var end := Went(v, moves).board;
      && c in end.inboxes && end.inboxes[c].capacity == v.board.inboxes[c].capacity
      && Seen(end.inboxes[c]) == Seen(v.board.inboxes[c]) + Kept(v, moves, c)
    decreases |moves|
  {
    if moves == [] {
      assert Seen(v.board.inboxes[c]) + [] == Seen(v.board.inboxes[c]);
    } else {
      hide Sound, Moved, SendsOn, Seen;
      var v1, later := Moved(v, moves[0]), moves[1..];
      MoveSound(v, moves[0]);
      MoveSeen(v, moves[0], c);
      RunKeeps(v1, later, c);
      assert Went(v, moves) == Went(v1, later);
      Appended(Seen(v.board.inboxes[c]), Seen(v1.board.inboxes[c]), Kept(v1, later, c));
    }
  }

  lemma {:induction false} KeptWithinOffered<C>(v: Floor<C>, moves: seq<Move<C>>, c: C)
    requires Sound(v) && AllNew(v, moves) && c in v.board.inboxes
    ensures Subsequence(Kept(v, moves, c), Events(Offered(v, moves, c)))
    ensures |Kept(v, moves, c)| <= |Events(Offered(v, moves, c))|
    ensures Kept(v, moves, c) == Events(Offered(v, moves, c)) <==> AlwaysRoom(v, moves, c)
    ensures |Kept(v, moves, c)| == |Events(Offered(v, moves, c))| <==> AlwaysRoom(v, moves, c)
    decreases |moves|
  {
    if moves != [] {
      hide Sound, Moved, SendsOn, Subsequence;
      var m, v1, later := moves[0], Moved(v, moves[0]), moves[1..];
      MoveSound(v, m);
      MoveSeen(v, m, c);
      KeptWithinOffered(v1, later, c);
      var kept, notes := Kept(v1, later, c), Offered(v1, later, c);
      if SendsOn(v, m, c) {
        SendsAreThere(v, m, c);
        var e := v.active[m.p].event;
        assert Events([Note(m.p, e)] + notes) == [e] + Events(notes);
        GotGrows(e, |v.board.inboxes[c].buffer| < v.board.inboxes[c].capacity, kept, Events(notes));
      } else {
        assert [] + notes == notes && [] + kept == kept;
      }
    }
  }

  lemma SendsAreThere<C>(v: Floor<C>, m: Move<C>, c: C)
    requires SendsOn(v, m, c)
    ensures m.Send? && m.p in v.active
  {
  }

  // ----- every publish reaches every subscriber it is meant for, once -----

  ghost predicate Owes<C>(v: Floor<C>, p: Id, c: C) {
    p in v.active && exists id :: id in v.active[p].todo && id in v.board.subs && v.board.subs[id].channel == c
                                  && Matches(v.board.subs[id].filter, v.active[p].event)
  }

  ghost function Owed<C>(v: Floor<C>, c: C): set<Note> {
    set p | p in v.active && Owes(v, p, c) :: Note(p, v.active[p].event)
  }

  lemma SameOwed<C>(v: Floor<C>, w: Floor<C>, c: C)
    requires w.active == v.active && (v.active != map[] ==> w.board.subs == v.board.subs)
    ensures Owed(w, c) == Owed(v, c)
  {
    assert forall p :: Owes(w, p, c) <==> Owes(v, p, c);
  }

  // One move keeps the account: begun and owed before is offered or owed after.
  lemma MoveOwed<C>(v: Floor<C>, m: Move<C>, c: C)
    requires Sound(v)
    ensures var w := Moved(v, m);
      var begun := m.Begin? && m.p !in v.active && Receives(v.board, c, m.event);
      && (begun ==> Note(m.p, m.event) !in Owed(v, c) && Owed(w, c) == Owed(v, c) + {Note(m.p, m.event)})
      && (SendsOn(v, m, c) ==> Note(m.p, v.active[m.p].event) in Owed(v, c)
                               && Owed(w, c) == Owed(v, c) - {Note(m.p, v.active[m.p].event)})
      && (!begun && !SendsOn(v, m, c) ==> Owed(w, c) == Owed(v, c))
  {
    var w := Moved(v, m);
    match m
    case Begin(p, event) =>
      if p !in v.active {
        BeginOwed(v, p, event, c);
      }
    case Send(p, id) =>
      if CanSend(v, p, id) {
        SendOwed(v, p, id, c);
      }
    case End(p) =>
      if p in v.active && v.active[p].todo == {} {
        assert !Owes(v, p, c);
        assert forall q :: q != p ==> (Owes(w, q, c) <==> Owes(v, q, c));
      }
    case _ => SameOwed(v, w, c);
  }

  lemma BeginOwed<C>(v: Floor<C>, p: Id, event: Event, c: C)
    requires p !in v.active
    ensures var w := Moved(v, Begin(p, event));
      && Note(p, event) !in Owed(v, c)
      && Owed(w, c) == Owed(v, c) + if Receives(v.board, c, event) then {Note(p, event)} else {}
  {
    var w := Moved(v, Begin(p, event));
    assert forall q :: q != p ==> (Owes(w, q, c) <==> Owes(v, q, c));
    assert Owes(w, p, c) <==> Receives(v.board, c, event);
    hide Owes, Receives;
  }

  lemma SendOwed<C>(v: Floor<C>, p: Id, id: Id, c: C)
    requires Sound(v) && CanSend(v, p, id)
    ensures var w := Moved(v, Send(p, id));
      var note := Note(p, v.active[p].event);
      if SendsOn(v, Send(p, id), c) then note in Owed(v, c) && Owed(w, c) == Owed(v, c) - {note}
      else Owed(w, c) == Owed(v, c)
  {
    var w := Moved(v, Send(p, id));
    assert w.board.subs == v.board.subs && w.active.Keys == v.active.Keys && w.active[p].event == v.active[p].event;
    assert forall q :: q != p ==> (Owes(w, q, c) <==> Owes(v, q, c));
    if SendsOn(v, Send(p, id), c) {
      assert Owes(v, p, c) && !Owes(w, p, c);
    } else {
      if Owes(v, p, c) {
        var other :| other in v.active[p].todo && other in v.board.subs && v.board.subs[other].channel == c
          && Matches(v.board.subs[other].filter, v.active[p].event);
        assert other in w.active[p].todo;
      }
      assert Owes(w, p, c) <==> Owes(v, p, c);
    }
    hide Owes, SendsOn, Sent;
  }

  lemma SetPlus(notes: set<Note>, n: Note)
    requires n !in notes
    ensures multiset(notes + {n}) == multiset(notes) + multiset{n}
  {
  }

  // The step of the account, as multisets.
  lemma MoveAccount<C>(v: Floor<C>, m: Move<C>, c: C)
    requires Sound(v)
    ensures var begun := m.Begin? && m.p !in v.active && Receives(v.board, c, m.event);
      multiset(Owed(v, c)) + multiset(if begun then [Note(m.p, m.event)] else [])
      == multiset(if SendsOn(v, m, c) then [Note(m.p, v.active[m.p].event)] else []) + multiset(Owed(Moved(v, m), c))
  {
    hide Sound, Moved, Owed, Receives;
    MoveOwed(v, m, c);
    if m.Begin? && m.p !in v.active && Receives(v.board, c, m.event) {
      SetPlus(Owed(v, c), Note(m.p, m.event));
    } else if SendsOn(v, m, c) {
      var n := Note(m.p, v.active[m.p].event);
      SetPlus(Owed(v, c) - {n}, n);
      assert Owed(v, c) - {n} + {n} == Owed(v, c);
    }
  }

  lemma Sums(owed: multiset<Note>, begun: seq<Note>, sent: seq<Note>, mid: multiset<Note>,
             later: seq<Note>, offered: seq<Note>, end: multiset<Note>)
    requires owed + multiset(begun) == multiset(sent) + mid && mid + multiset(later) == multiset(offered) + end
    ensures owed + multiset(begun + later) == multiset(sent + offered) + end
  {
    calc {
      owed + multiset(begun + later);
      owed + multiset(begun) + multiset(later);
      multiset(sent) + mid + multiset(later);
      multiset(sent) + (multiset(offered) + end);
      multiset(sent + offered) + end;
    }
  }

  // Over any run: what was owed or began is offered or still owed, each note as
  // often.
  lemma {:induction false} Account<C>(v: Floor<C>, moves: seq<Move<C>>, c: C)
    requires Sound(v) && AllNew(v, moves)
    ensures multiset(Owed(v, c)) + multiset(Begun(v, moves, c))
         == multiset(Offered(v, moves, c)) + multiset(Owed(Went(v, moves), c))
    decreases |moves|
  {
    if moves != [] {
      hide Sound, Moved, SendsOn, Owed, Receives;
      var m, v1, later := moves[0], Moved(v, moves[0]), moves[1..];
      MoveSound(v, m);
      MoveAccount(v, m, c);
      Account(v1, later, c);
      var begun := if m.Begin? && m.p !in v.active && Receives(v.board, c, m.event) then [Note(m.p, m.event)] else [];
      var sent := if SendsOn(v, m, c) then [Note(m.p, v.active[m.p].event)] else [];
      Sums(multiset(Owed(v, c)), begun, sent, multiset(Owed(v1, c)), Begun(v1, later, c), Offered(v1, later, c),
           multiset(Owed(Went(v1, later), c)));
    }
  }

  lemma NothingOwed<C>(v: Floor<C>, c: C)
    requires v.active == map[]
    ensures multiset(Owed(v, c)) == multiset{}
  {
    NoneOwed(v, c);
  }

  lemma Joined<C>(v: Floor<C>, id: Id, filter: Filter, c: C, capacity: nat)
    requires Sound(v) && v.active == map[] && id !in v.board.subs && c !in v.board.inboxes
    ensures var start := Moved(v, Join(id, filter, c, capacity));
      && Sound(start) && start.active == map[] && c in start.board.inboxes && start.board.inboxes[c].buffer == []
      && Seen(start.board.inboxes[c]) == [] && start.board.inboxes[c].capacity == capacity
  {
    MoveSound(v, Join(id, filter, c, capacity));
  }

  lemma WithinCapacity<C>(v: Floor<C>, c: C)
    requires Sound(v) && c in v.board.inboxes
    ensures |v.board.inboxes[c].buffer| <= v.board.inboxes[c].capacity
  {
  }

  // The theorem on subscribers. From its subscription on, over any run in which
  // publishes may overlap, a subscriber has consumed or has in its buffer a
  // subsequence of the events sent to it, all of them if and only if its buffer
  // was never full at a send, and never more than its capacity in the buffer.
  // Once no publish is under way, what was sent to it are exactly the matching
  // publishes that began since, each once.
  lemma SubscriberIsSent<C>(v: Floor<C>, id: Id, filter: Filter, c: C, capacity: nat, moves: seq<Move<C>>)
    requires Sound(v) && v.active == map[] && id !in v.board.subs && c !in v.board.inboxes
    requires AllNew(Moved(v, Join(id, filter, c, capacity)), moves)
    ensures var start := Moved(v, Join(id, filter, c, capacity));
      var end := Went(start, moves);
      && c in end.board.inboxes
      && var x, offered := end.board.inboxes[c], Offered(start, moves, c);
         && |x.buffer| <= capacity
         && Subsequence(x.consumed + x.buffer, Events(offered))
         && (x.consumed + x.buffer == Events(offered) <==> AlwaysRoom(start, moves, c))
         && (end.active == map[] ==> multiset(offered) == multiset(Begun(start, moves, c)))
  {
    hide Sound, Moved, Went, Offered, Begun, Kept, AlwaysRoom, Subsequence, AllNew, Owed, Events;
    var start := Moved(v, Join(id, filter, c, capacity));
    var end := Went(start, moves);
    Joined(v, id, filter, c, capacity);
    RunSound(start, moves);
    RunKeeps(start, moves, c);
    WithinCapacity(end, c);
    KeptWithinOffered(start, moves, c);
    Account(start, moves, c);
    assert [] + Kept(start, moves, c) == Kept(start, moves, c);
    NothingOwed(start, c);
    if end.active == map[] {
      NothingOwed(end, c);
      BothEmpty(multiset(Begun(start, moves, c)), multiset(Offered(start, moves, c)));
    }
  }

  lemma BothEmpty(a: multiset<Note>, b: multiset<Note>)
    ensures multiset{} + a == b + multiset{} <==> a == b
  {
    assert multiset{} + a == a && b + multiset{} == b;
  }

  // ----- order -----

  lemma {:induction false} OfferedConcat<C>(v: Floor<C>, a: seq<Move<C>>, b: seq<Move<C>>, c: C)
    ensures Offered(v, a + b, c) == Offered(v, a, c) + Offered(Went(v, a), b, c)
    decreases |a|
  {
    hide Moved, SendsOn;
    if a == [] {
      assert a + b == b;
    } else {
      assert (a + b)[0] == a[0] && (a + b)[1..] == a[1..] + b;
      OfferedConcat(Moved(v, a[0]), a[1..], b, c);
    }
  }

  ghost predicate Begins<C>(moves: seq<Move<C>>, p: Id) {
    exists m :: m in moves && m.Begin? && m.p == p
  }

  // Only a publish under way, or one that begins, sends.
  lemma {:induction false} SendersBegan<C>(v: Floor<C>, moves: seq<Move<C>>, c: C, note: Note)
    requires note in Offered(v, moves, c)
    ensures note.p in v.active || Begins(moves, note.p)
    decreases |moves|
  {
    if moves != [] {
      var v1, later := Moved(v, moves[0]), moves[1..];
      if SendsOn(v, moves[0], c) && note == Note(moves[0].p, v.active[moves[0].p].event) {
        assert note.p in v.active;
      } else {
        SendersBegan(v1, later, c, note);
        if note.p in v1.active && note.p !in v.active {
          assert moves[0] in moves && moves[0].Begin? && moves[0].p == note.p;
        }
      }
    }
  }

  // Publishes that do not overlap keep their order: whatever publish p, ended
  // before some moment, sent on a channel comes before whatever publish q, begun
  // after it, sent there.
  lemma OfferedInTurn<C>(v: Floor<C>, a: seq<Move<C>>, b: seq<Move<C>>, c: C, p: Id, q: Id, i: nat, j: nat)
    requires p !in Went(v, a).active && !Begins(b, p)
    requires q !in v.active && !Begins(a, q)
    requires i < |Offered(v, a + b, c)| && Offered(v, a + b, c)[i].p == p
    requires j < |Offered(v, a + b, c)| && Offered(v, a + b, c)[j].p == q
    ensures i < j
  {
    hide Offered, Went, Begins;
    OfferedConcat(v, a, b, c);
    var first, second := Offered(v, a, c), Offered(Went(v, a), b, c);
    if i >= |first| {
      assert second[i - |first|].p == p;
      SendersBegan(Went(v, a), b, c, second[i - |first|]);
      assert false;
    }
    if j < |first| {
      assert first[j].p == q;
      SendersBegan(v, a, c, first[j]);
      assert false;
    }
  }

  // Whenever a publish meant for c begins, the last one has been sent there.
  ghost predicate OneAtATime<C>(v: Floor<C>, moves: seq<Move<C>>, c: C)
    decreases |moves|
  {
    moves != [] ==>
      && (moves[0].Begin? && moves[0].p !in v.active && Receives(v.board, c, moves[0].event) ==> Owed(v, c) == {})
      && OneAtATime(Moved(v, moves[0]), moves[1..], c)
  }

  // Then c is sent the publishes meant for it in the order they began.
  lemma {:induction false} SentInOrder<C>(v: Floor<C>, moves: seq<Move<C>>, c: C, owed: seq<Note>)
    returns (left: seq<Note>)
    requires Sound(v) && AllNew(v, moves) && OneAtATime(v, moves, c)
    requires |owed| <= 1 && Owed(v, c) == NotesOf(owed)
    ensures |left| <= 1 && Owed(Went(v, moves), c) == NotesOf(left)
    ensures owed + Begun(v, moves, c) == Offered(v, moves, c) + left
    decreases |moves|
  {
    left := owed;
    if moves == [] {
      assert owed + [] == [] + owed;
    } else {
      hide Sound, Moved, SendsOn, Owed, Receives, NotesOf;
      var m, v1, later := moves[0], Moved(v, moves[0]), moves[1..];
      var begun := if m.Begin? && m.p !in v.active && Receives(v.board, c, m.event) then [Note(m.p, m.event)] else [];
      var sent := if SendsOn(v, m, c) then [Note(m.p, v.active[m.p].event)] else [];
      MoveSound(v, m);
      MoveOwed(v, m, c);
      OnlySendsSend(v, m, c);
      var mid := owed;
      if begun != [] {
        NoNotes(owed);
        OneNote(begun, begun[0]);
        mid := begun;
      } else if sent != [] {
        OneNote(owed, sent[0]);
        mid := [];
      }
      left := SentInOrder(v1, later, c, mid);
      Chained(owed, begun, sent, mid, Begun(v1, later, c), Offered(v1, later, c), left);
    }
  }

  lemma Chained(owed: seq<Note>, begun: seq<Note>, sent: seq<Note>, mid: seq<Note>,
                later: seq<Note>, offered: seq<Note>, left: seq<Note>)
    requires owed + begun == sent + mid && mid + later == offered + left
    ensures owed + (begun + later) == (sent + offered) + left
  {
    assert owed + (begun + later) == (owed + begun) + later;
    assert (sent + mid) + later == sent + (mid + later);
    assert sent + (offered + left) == (sent + offered) + left;
  }

  function NotesOf(notes: seq<Note>): set<Note> {
    set n | n in notes
  }

  lemma NoNotes(notes: seq<Note>)
    ensures NotesOf(notes) == {} ==> notes == []
  {
    if notes != [] {
      assert notes[0] in NotesOf(notes);
    }
  }

  lemma OneNote(notes: seq<Note>, n: Note)
    requires |notes| <= 1 && n in NotesOf(notes)
    ensures notes == [n] && NotesOf(notes) == {n} && NotesOf([]) == {}
  {
  }

  lemma OnlySendsSend<C>(v: Floor<C>, m: Move<C>, c: C)
    ensures SendsOn(v, m, c) ==> m.Send? && m.p in v.active
  {
  }

  // ----- room -----

  // A buffer with room for all that is sent is never full.
  lemma {:induction false} RoomForAll<C>(v: Floor<C>, moves: seq<Move<C>>, c: C)
    requires Sound(v) && AllNew(v, moves) && c in v.board.inboxes
    requires |v.board.inboxes[c].buffer| + |Offered(v, moves, c)| <= v.board.inboxes[c].capacity
    ensures AlwaysRoom(v, moves, c)
    decreases |moves|
  {
    if moves != [] {
      hide Sound, SendsOn;
      MoveSound(v, moves[0]);
      BufferGrows(v, moves[0], c);
      hide Moved;
      RoomForAll(Moved(v, moves[0]), moves[1..], c);
    }
  }

  lemma BufferGrows<C>(v: Floor<C>, m: Move<C>, c: C)
    requires Sound(v) && (m.Join? ==> m.id !in v.board.subs && m.channel !in v.board.inboxes) && c in v.board.inboxes
    ensures var after := Moved(v, m).board;
      && c in after.inboxes && after.inboxes[c].capacity == v.board.inboxes[c].capacity
      && |after.inboxes[c].buffer| <= |v.board.inboxes[c].buffer| + if SendsOn(v, m, c) then 1 else 0
  {
  }

  // A subscriber to which publishes come one at a time, with room for them all,
  // whatever else is published, read or subscribed in between: it has consumed
  // or has in its buffer exactly their events, in the order they began.
  lemma RoomySubscriberIsSentAll<C>(v: Floor<C>, id: Id, filter: Filter, c: C, capacity: nat, moves: seq<Move<C>>)
    requires Sound(v) && v.active == map[] && id !in v.board.subs && c !in v.board.inboxes
    requires AllNew(Moved(v, Join(id, filter, c, capacity)), moves)
    requires OneAtATime(Moved(v, Join(id, filter, c, capacity)), moves, c)
    requires Went(Moved(v, Join(id, filter, c, capacity)), moves).active == map[]
    requires |Begun(Moved(v, Join(id, filter, c, capacity)), moves, c)| <= capacity
    ensures var start := Moved(v, Join(id, filter, c, capacity));
      var end := Went(start, moves).board;
      && c in end.inboxes
      && end.inboxes[c].consumed + end.inboxes[c].buffer == Events(Begun(start, moves, c))
  {
    hide Sound, Moved, Went, Offered, Begun, AlwaysRoom, Subsequence, AllNew, Owed, Events, OneAtATime;
    var start := Moved(v, Join(id, filter, c, capacity));
    Joined(v, id, filter, c, capacity);
    NoneOwed(start, c);
    var left := SentInOrder(start, moves, c, []);
    NoneOwed(Went(start, moves), c);
    NoNotes(left);
    var begun, offered := Begun(start, moves, c), Offered(start, moves, c);
    assert [] + begun == begun && offered + [] == offered;
    RoomForAll(start, moves, c);
    SubscriberIsSent(v, id, filter, c, capacity, moves);
  }

  lemma NoneOwed<C>(v: Floor<C>, c: C)
    requires v.active == map[]
    ensures Owed(v, c) == {}
  {
  }

  // ----- a publish that nothing overlaps -----

  function Sends<C>(p: Id, ids: seq<Id>): seq<Move<C>> {
    if ids == [] then [] else [Send(p, ids[0])] + Sends(p, ids[1..])
  }

  predicate NoRepeats(ids: seq<Id>) {
    forall i, j | 0 <= i < j < |ids| :: ids[i] != ids[j]
  }

  // The range visits the subscribers in some order, each once; whichever it is,
  // what a publish that runs alone leaves is what Publish leaves.
  lemma LonePublish<C>(v: Floor<C>, p: Id, e: Event, ids: seq<Id>)
    requires Sound(v) && p !in v.active
    requires NoRepeats(ids) && forall id :: id in ids <==> id in v.board.subs
    ensures var begun := Moved(v, Begin(p, e));
      var end := Moved(Went(begun, Sends(p, ids)), End(p));
      end.board == Published(v.board, e) && end.active == v.active
  {
    var begun := Moved(v, Begin(p, e));
    LoneSends(begun, p, ids);
    SendsVisit(begun, p, ids);
    var after := Went(begun, Sends(p, ids));
    hide Went, Sends;
    assert after.active[p].todo == {};
    FanOutIsPublished(v.board, after.board, e);
  }

  lemma SendsRest<C>(p: Id, ids: seq<Id>)
    requires ids != [] && NoRepeats(ids)
    ensures Sends<C>(p, ids)[0] == Send(p, ids[0]) && Sends<C>(p, ids)[1..] == Sends<C>(p, ids[1..])
    ensures NoRepeats(ids[1..]) && ids[0] !in ids[1..] && forall x :: x in ids <==> x == ids[0] || x in ids[1..]
  {
    assert forall i | 0 <= i < |ids| - 1 :: ids[1..][i] == ids[i + 1];
  }

  lemma {:induction false} SendsVisit<C>(v: Floor<C>, p: Id, ids: seq<Id>)
    requires p in v.active && NoRepeats(ids) && forall id :: id in ids ==> id in v.active[p].todo
    ensures var after := Went(v, Sends(p, ids)).active;
      && p in after && after == v.active[p := after[p]] && after[p].event == v.active[p].event
      && forall id :: id in after[p].todo <==> id in v.active[p].todo && id !in ids
    decreases |ids|
  {
    if ids == [] {
      assert v.active[p := v.active[p]] == v.active;
    } else {
      SendsRest<C>(p, ids);
      var v1 := Moved(v, Send(p, ids[0]));
      hide Sends, NoRepeats;
      SendsVisit(v1, p, ids[1..]);
    }
  }

  lemma {:induction false} LoneSends<C>(v: Floor<C>, p: Id, ids: seq<Id>)
    requires Sound(v) && p in v.active && NoRepeats(ids) && forall id :: id in ids ==> id in v.active[p].todo
    ensures var e, after := v.active[p].event, Went(v, Sends(p, ids)).board;
      && after.subs == v.board.subs && after.inboxes.Keys == v.board.inboxes.Keys
      && (forall id :: id in ids ==>
            && id in v.board.subs && v.board.subs[id].channel in v.board.inboxes
            && var c := v.board.subs[id].channel;
               after.inboxes[c]
               == if Matches(v.board.subs[id].filter, e) then Offer(v.board.inboxes[c], e) else v.board.inboxes[c])
      && (forall c :: c in v.board.inboxes && (forall id :: id in ids ==> v.board.subs[id].channel != c) ==>
            after.inboxes[c] == v.board.inboxes[c])
    decreases |ids|
  {
    if ids != [] {
      SendsRest<C>(p, ids);
      var v1 := Moved(v, Send(p, ids[0]));
      MoveSound(v, Send(p, ids[0]));
      hide Sends, NoRepeats, Matches, Offer;
      LoneSends(v1, p, ids[1..]);
    }
  }
}
