/** What every step tells every listener.

    A message is told to an address. What the sessions and the rooms registered there make of it depends on
    whether they are open, can be reached, and have inbox space. `Words` is what a step tells one address;
    `StepTold` says that sessions, and rooms that stay open, are as they are after hearing just that, and
    the other lemmas are the cases of it, one for each kind of step. */
module Told {
  import opened Messages
  import opened Nodes
  import opened Consistency
  import opened RoomEffects
  import opened Cluster
  import opened Invariant
  import opened Notices
  import opened Preservation

  function SessionAfter(y: Session, ms: seq<Message>, down: set<Id>): Session
    decreases |ms|
  {
    if ms == [] then y else SessionAfter(Hears(y, [y.conn], ms[0], down), ms[1..], down)
  }

  function RoomAfter(x: Room, ms: seq<Message>, down: set<Id>): Room
    decreases |ms|
  {
    if ms == [] then x else RoomAfter(HearsRoom(x, [x.address], ms[0], down), ms[1..], down)
  }

  function To(cs: seq<Id>, m: Message, a: Id): seq<Message> {
    if a in cs then [m] else []
  }

  /** A judgement of room `x`: its members are told Close if there is a verdict. */
  function ReapWords(x: Room, now: int, a: Id): seq<Message> {
    if Verdict(x, now).Some? then To(x.conns, Close(x.address, Verdict(x, now).value), a) else []
  }

  function SweepWords<R>(rooms: map<R, Room>, order: seq<R>, now: int, a: Id): seq<Message>
    requires forall r :: r in order ==> r in rooms
  {
    if order == [] then [] else ReapWords(rooms[order[0]], now, a) + SweepWords(rooms, order[1..], now, a)
  }

  function LeaveWords(x: Room, c: Id, now: int, a: Id): seq<Message> {
    To(Without(x.conns, c), Leave(c), a) + ReapWords(Left(x, c, now), now, a)
  }

  /** What an enabled step tells address `a`, in order. */
  ghost function Words<R, S>(s: State<R, S>, e: Step<R, S>, a: Id): seq<Message>
    requires HubWired(s.hub) && Enabled(s, e)
  {
    var rooms, mapped := s.hub.node.rooms, s.hub.mapped;
    match e
    case Remove(id) =>
      if id in mapped then To(rooms[mapped[id]].conns, Close(rooms[mapped[id]].address, rooms[mapped[id]].why), a) else []
    case Sweeping(order) => SweepWords(rooms, order, s.now, a)
    case Joining(c, secret) =>
      var id := s.clients[c].target;
      if Joins(s.hub, id, secret) then To(rooms[mapped[id]].conns + [c], Join(c), a) else []
    case Departing(c) =>
      var id := s.clients[c].target;
      if id in mapped then LeaveWords(rooms[mapped[id]], c, s.now, a) else []
    case SendAll(c, data, includeSelf) => To([s.clients[c].target], Broadcast(data, c, includeSelf), a)
    case SendOne(c, data, to) => To([to], Unicast(data, c, Some(to)), a)
    case Deliver(r) => To([s.work[r][0]], Current(s.hub.node, r), a)
    case _ => []
  }

  // ---- one message, several messages ----

  lemma HearsTo(y: Session, cs: seq<Id>, m: Message, down: set<Id>)
    ensures SessionAfter(y, To(cs, m, y.conn), down) == Hears(y, cs, m, down)
    ensures Hears(y, cs, m, down).conn == y.conn
  {
    if y.conn in cs {
      assert [m][1..] == [];
      assert SessionAfter(y, [m], down) == SessionAfter(Hears(y, [y.conn], m, down), [], down);
    }
  }

  lemma HearsRoomTo(x: Room, cs: seq<Id>, m: Message, down: set<Id>)
    ensures RoomAfter(x, To(cs, m, x.address), down) == HearsRoom(x, cs, m, down)
    ensures HearsRoom(x, cs, m, down).address == x.address
  {
    if x.address in cs {
      assert [m][1..] == [];
      assert RoomAfter(x, [m], down) == RoomAfter(HearsRoom(x, [x.address], m, down), [], down);
    }
  }

  lemma {:induction false} SessionAfterBoth(y: Session, ms: seq<Message>, ns: seq<Message>, down: set<Id>)
    ensures SessionAfter(y, ms + ns, down) == SessionAfter(SessionAfter(y, ms, down), ns, down)
    ensures SessionAfter(y, ms, down).conn == y.conn
    decreases |ms|
  {
    if ms == [] {
      assert ms + ns == ns;
    } else {
      assert (ms + ns)[0] == ms[0] && (ms + ns)[1..] == ms[1..] + ns;
      SessionAfterBoth(Hears(y, [y.conn], ms[0], down), ms[1..], ns, down);
    }
  }

  lemma {:induction false} RoomAfterBoth(x: Room, ms: seq<Message>, ns: seq<Message>, down: set<Id>)
    ensures RoomAfter(x, ms + ns, down) == RoomAfter(RoomAfter(x, ms, down), ns, down)
    ensures HeardOnly(x, RoomAfter(x, ms, down))
    decreases |ms|
  {
    if ms == [] {
      assert ms + ns == ns;
    } else {
      var x1 := HearsRoom(x, [x.address], ms[0], down);
      assert (ms + ns)[0] == ms[0] && (ms + ns)[1..] == ms[1..] + ns;
      RoomAfterBoth(x1, ms[1..], ns, down);
      HearsRoomOnly(x, [x.address], ms[0], down);
      HeardTwice(x, x1, RoomAfter(x, ms, down));
    }
  }

  /** What a room hears depends on its address, status and inbox alone. */
  lemma {:induction false} SameEars(x: Room, x': Room, ms: seq<Message>, down: set<Id>)
    requires x'.address == x.address && x'.inbox == x.inbox && (x'.status == Closed <==> x.status == Closed)
    ensures RoomAfter(x', ms, down).inbox == RoomAfter(x, ms, down).inbox
    decreases |ms|
  {
    if ms == [] {
    } else {
      SameEars(HearsRoom(x, [x.address], ms[0], down), HearsRoom(x', [x.address], ms[0], down), ms[1..], down);
    }
  }

  // ---- reaping and sweeping ----

  /** Reaping room `r` turns `n` into `n'`. */
  ghost predicate ReapHeard<R, S>(n: Node<R, S>, n': Node<R, S>, r: R, now: int)
    requires r in n.rooms
  {
    && n'.down == n.down && n'.sess.Keys == n.sess.Keys && n'.rooms.Keys == n.rooms.Keys
    && (forall t :: t in n.sess ==> n'.sess[t] == SessionAfter(n.sess[t], ReapWords(n.rooms[r], now, n.sess[t].conn), n.down))
    && (forall q :: q in n.rooms && (q == r ==> Verdict(n.rooms[r], now).None?) ==>
          n'.rooms[q] == RoomAfter(n.rooms[q], ReapWords(n.rooms[r], now, n.rooms[q].address), n.down))
  }

  lemma ReapTold<R, S>(s: State<R, S>, r: R)
    requires Inv(s) && OpenAt(s, r)
    ensures ReapHeard(s.hub.node, Reap(s.hub, r, s.now).node, r, s.now)
  {
    hide RoomInv, MemberInv, ClientInv, MappedInv, OrderInv, ListOk, SessionOk, RoomOk, RoomClose, Verdict;
    var x := s.hub.node.rooms[r];
    var n, n1 := s.hub.node, SetRoom(s.hub.node, r, Judged(x, s.now));
    JudgeKeeps(s, r);
    if Verdict(x, s.now).Some? {
      var m := Close(x.address, Verdict(x, s.now).value);
      CloseEffect(n1, r, s.now);
      forall t | t in n.sess ensures SessionAfter(n.sess[t], To(x.conns, m, n.sess[t].conn), n.down) == Hears(n.sess[t], x.conns, m, n.down) {
        HearsTo(n.sess[t], x.conns, m, n.down);
      }
      forall q | q in n.rooms ensures RoomAfter(n.rooms[q], To(x.conns, m, n.rooms[q].address), n.down) == HearsRoom(n.rooms[q], x.conns, m, n.down) {
        HearsRoomTo(n.rooms[q], x.conns, m, n.down);
      }
    } else {
      assert n.rooms[r := x] == n.rooms;
    }
  }

  lemma {:induction false} SameWords<R>(rooms: map<R, Room>, rooms': map<R, Room>, order: seq<R>, now: int, a: Id)
    requires forall r :: r in order ==> r in rooms && r in rooms' && HeardOnly(rooms[r], rooms'[r])
    ensures SweepWords(rooms', order, now, a) == SweepWords(rooms, order, now, a)
    decreases |order|
  {
    if order == [] {
    } else {
      assert order[0] in order;
      SweptHeard(rooms[order[0]], rooms'[order[0]], now);
      SameWords(rooms, rooms', order[1..], now, a);
    }
  }

  lemma RestWords<R, S>(s: State<R, S>, r: R, rest: seq<R>, a: Id)
    requires Inv(s) && OpenAt(s, r) && AllOpen(s, rest) && r !in rest
    ensures forall q :: q in rest ==> q in Reap(s.hub, r, s.now).node.rooms
    ensures SweepWords(Reap(s.hub, r, s.now).node.rooms, rest, s.now, a) == SweepWords(s.hub.node.rooms, rest, s.now, a)
  {
    hide RoomInv, MemberInv, ClientInv, MappedInv, OrderInv, ListOk, SessionOk, RoomOk, Reap;
    ReapRest(s, r, rest);
    var rooms, rooms' := s.hub.node.rooms, Reap(s.hub, r, s.now).node.rooms;
    forall q | q in rest ensures q in rooms' && HeardOnly(rooms[q], rooms'[q]) {
      assert q != r && HeardOnly(rooms[q], rooms'[q]);
    }
    SameWords(rooms, rooms', rest, s.now, a);
  }

  lemma {:induction false} SweepToldSession<R, S>(s: State<R, S>, order: seq<R>, t: S)
    requires Inv(s) && Distinct(order) && AllOpen(s, order) && t in s.hub.node.sess
    ensures var n, n' := s.hub.node, Sweep(s.hub, order, s.now).node;
            t in n'.sess && n'.sess[t] == SessionAfter(n.sess[t], SweepWords(n.rooms, order, s.now, n.sess[t].conn), n.down)
    decreases |order|
  {
    hide RoomInv, MemberInv, ClientInv, MappedInv, OrderInv, ListOk, SessionOk, RoomOk, Reap, Reaped, ReapWords;
    if order == [] {
    } else {
      var r, rest, y := order[0], order[1..], s.hub.node.sess[t];
      assert r in order && order == [r] + rest;
      ReapRest(s, r, rest);
      ReapTold(s, r);
      RestWords(s, r, rest, y.conn);
      SessionAfterBoth(y, ReapWords(s.hub.node.rooms[r], s.now, y.conn), SweepWords(s.hub.node.rooms, rest, s.now, y.conn), s.hub.node.down);
      SweepToldSession(s.(hub := Reap(s.hub, r, s.now)), rest, t);
    }
  }

  lemma {:induction false} SweepToldRoom<R, S>(s: State<R, S>, order: seq<R>, q: R)
    requires Inv(s) && Distinct(order) && AllOpen(s, order) && q in s.hub.node.rooms
    requires q in order ==> Verdict(s.hub.node.rooms[q], s.now).None?
    ensures var n, n' := s.hub.node, Sweep(s.hub, order, s.now).node;
            q in n'.rooms && n'.rooms[q] == RoomAfter(n.rooms[q], SweepWords(n.rooms, order, s.now, n.rooms[q].address), n.down)
    decreases |order|
  {
    hide RoomInv, MemberInv, ClientInv, MappedInv, OrderInv, ListOk, SessionOk, RoomOk, Reap, Reaped, ReapWords, Verdict;
    if order == [] {
    } else {
      var r, rest, x := order[0], order[1..], s.hub.node.rooms[q];
      assert r in order && order == [r] + rest;
      ReapRest(s, r, rest);
      ReapTold(s, r);
      RestWords(s, r, rest, x.address);
      RoomAfterBoth(x, ReapWords(s.hub.node.rooms[r], s.now, x.address), SweepWords(s.hub.node.rooms, rest, s.now, x.address), s.hub.node.down);
      SweptHeard(x, Reap(s.hub, r, s.now).node.rooms[q], s.now);
      SweepToldRoom(s.(hub := Reap(s.hub, r, s.now)), rest, q);
    }
  }

  // ---- the other operations ----

  /** Saying `m` to `cs` turns `n` into `n'`, while room `r` changes otherwise. */
  ghost predicate SaidTo<R, S>(n: Node<R, S>, n': Node<R, S>, r: R, cs: seq<Id>, m: Message) {
    && n'.down == n.down && n'.sess.Keys == n.sess.Keys && n'.rooms.Keys == n.rooms.Keys
    && (forall t :: t in n.sess ==> n'.sess[t] == SessionAfter(n.sess[t], To(cs, m, n.sess[t].conn), n.down))
    && (forall q :: q in n.rooms ==> n'.rooms[q].inbox == RoomAfter(n.rooms[q], To(cs, m, n.rooms[q].address), n.down).inbox)
    && (forall q :: q in n.rooms && q != r ==> n'.rooms[q] == RoomAfter(n.rooms[q], To(cs, m, n.rooms[q].address), n.down))
  }

  lemma SendsTold<R, S>(n: Node<R, S>, n': Node<R, S>, r: R, x': Room, cs: seq<Id>, m: Message)
    requires Sends(n, n', r, x', cs, m) && x'.address == n.rooms[r].address && x'.inbox == n.rooms[r].inbox
    requires x'.status == Closed <==> n.rooms[r].status == Closed
    ensures SaidTo(n, n', r, cs, m)
  {
    forall t | t in n.sess ensures SessionAfter(n.sess[t], To(cs, m, n.sess[t].conn), n.down) == Hears(n.sess[t], cs, m, n.down) {
      HearsTo(n.sess[t], cs, m, n.down);
    }
    forall q | q in n.rooms ensures RoomAfter(n.rooms[q], To(cs, m, n.rooms[q].address), n.down) == HearsRoom(n.rooms[q], cs, m, n.down) {
      HearsRoomTo(n.rooms[q], cs, m, n.down);
    }
  }

  /** The sessions and the rooms of `s'` are those of `s` after hearing what step `e` tells them. */
  ghost predicate HeardBy<R, S>(s: State<R, S>, s': State<R, S>, e: Step<R, S>)
    requires HubWired(s.hub) && Enabled(s, e)
  {
    var n, n' := s.hub.node, s'.hub.node;
    && (forall t :: t in n.sess ==> t in n'.sess && n'.sess[t] == SessionAfter(n.sess[t], Words(s, e, n.sess[t].conn), n.down))
    && n'.rooms.Keys >= n.rooms.Keys
    && (forall q :: q in n.rooms && n'.rooms[q].status != Closed ==>
          n'.rooms[q].inbox.placed == RoomAfter(n.rooms[q], Words(s, e, n.rooms[q].address), n.down).inbox.placed)
  }

  lemma RemoveTold<R, S>(s: State<R, S>, id: Id)
    requires Inv(s)
    ensures HeardBy(s, s.(hub := RemoveRoom(s.hub, id, s.now)), Remove(id))
  {
    hide RoomInv, MemberInv, ClientInv, OrderInv, ListOk, SessionOk, RoomOk, RoomClose, Hears, HearsRoom;
    if id in s.hub.mapped {
      var r := s.hub.mapped[id];
      assert MappedInv(s, id);
      var x, n := s.hub.node.rooms[r], s.hub.node;
      CloseEffect(n, r, s.now);
      ClosedTold(n, RoomClose(n, r, s.now), r, x.(status := Closed, closes := x.closes + 1, activeAt := s.now), x.conns, Close(x.address, x.why));
    }
  }

  lemma ClosedTold<R, S>(n: Node<R, S>, n': Node<R, S>, r: R, x': Room, cs: seq<Id>, m: Message)
    requires Sends(n, n', r, x', cs, m) && x'.status == Closed
    ensures r in n'.rooms && n'.rooms[r].status == Closed
    ensures forall t :: t in n.sess ==> t in n'.sess && n'.sess[t] == SessionAfter(n.sess[t], To(cs, m, n.sess[t].conn), n.down)
    ensures forall q :: q in n.rooms && q != r ==>
              q in n'.rooms && n'.rooms[q].inbox == RoomAfter(n.rooms[q], To(cs, m, n.rooms[q].address), n.down).inbox
  {
    forall t | t in n.sess ensures SessionAfter(n.sess[t], To(cs, m, n.sess[t].conn), n.down) == Hears(n.sess[t], cs, m, n.down) {
      HearsTo(n.sess[t], cs, m, n.down);
    }
    forall q | q in n.rooms ensures RoomAfter(n.rooms[q], To(cs, m, n.rooms[q].address), n.down) == HearsRoom(n.rooms[q], cs, m, n.down) {
      HearsRoomTo(n.rooms[q], cs, m, n.down);
    }
  }

  lemma SweepingTold<R, S>(s: State<R, S>, order: seq<R>)
    requires Inv(s) && Enumerates(s.hub, order)
    ensures HeardBy(s, DoSweep(s, order), Sweeping(order))
  {
    hide RoomInv, MemberInv, ClientInv, MappedInv, OrderInv, ListOk, SessionOk, RoomOk, Sweep, SweepWords, Verdict;
    OrderOpen(s, order);
    forall t | t in s.hub.node.sess
      ensures t in DoSweep(s, order).hub.node.sess
           && DoSweep(s, order).hub.node.sess[t]
              == SessionAfter(s.hub.node.sess[t], SweepWords(s.hub.node.rooms, order, s.now, s.hub.node.sess[t].conn), s.hub.node.down)
    {
      SweepToldSession(s, order, t);
    }
    forall q | q in s.hub.node.rooms
      ensures var n, n' := s.hub.node, DoSweep(s, order).hub.node;
              q in n'.rooms && (n'.rooms[q].status != Closed ==>
                n'.rooms[q].inbox == RoomAfter(n.rooms[q], SweepWords(n.rooms, order, s.now, n.rooms[q].address), n.down).inbox)
    {
      SweepEffect(s, order, q);
      if !(q in order && Verdict(s.hub.node.rooms[q], s.now).Some?) { SweepToldRoom(s, order, q); }
    }
  }

  lemma SaidHeard<R, S>(s: State<R, S>, s': State<R, S>, e: Step<R, S>, r: R, cs: seq<Id>, m: Message)
    requires HubWired(s.hub) && Enabled(s, e) && SaidTo(s.hub.node, s'.hub.node, r, cs, m)
    requires forall a :: Words(s, e, a) == To(cs, m, a)
    ensures HeardBy(s, s', e)
  {
    hide Words, Enabled, To;
  }

  lemma NothingHeard<R, S>(s: State<R, S>, s': State<R, S>, e: Step<R, S>)
    requires HubWired(s.hub) && Enabled(s, e) && (forall a :: Words(s, e, a) == [])
    requires forall t :: t in s.hub.node.sess ==> t in s'.hub.node.sess && s'.hub.node.sess[t] == s.hub.node.sess[t]
    requires forall q :: q in s.hub.node.rooms ==> q in s'.hub.node.rooms && s'.hub.node.rooms[q].inbox.placed == s.hub.node.rooms[q].inbox.placed
    ensures HeardBy(s, s', e)
  {
    hide Words, Enabled;
  }

  lemma JoinTold<R, S>(s: State<R, S>, c: Id, secret: string)
    requires Inv(s) && Enabled(s, Joining(c, secret))
    ensures HeardBy(s, DoJoin(s, c, secret), Joining(c, secret))
  {
    var id := s.clients[c].target;
    hide Inv, RoomJoin, RoomAfter, SessionAfter, To, SaidTo, HeardBy;
    if Joins(s.hub, id, secret) {
      JoinSaid(s, c, secret);
      SaidHeard(s, DoJoin(s, c, secret), Joining(c, secret), s.hub.mapped[id], s.hub.node.rooms[s.hub.mapped[id]].conns + [c], Join(c));
    } else {
      NoJoin(s.hub, id, c, secret, s.now);
      hide Joins, JoinRoom;
      NothingHeard(s, DoJoin(s, c, secret), Joining(c, secret));
    }
  }

  lemma JoinSaid<R, S>(s: State<R, S>, c: Id, secret: string)
    requires Inv(s) && Enabled(s, Joining(c, secret)) && Joins(s.hub, s.clients[c].target, secret)
    ensures var id := s.clients[c].target;
            var r := s.hub.mapped[id];
            SaidTo(s.hub.node, RoomJoin(s.hub.node, r, c, id, secret, s.now), r, s.hub.node.rooms[r].conns + [c], Join(c))
  {
    hide RoomInv, MemberInv, OrderInv, ListOk, SessionOk, RoomOk, RoomJoin, Sends, SaidTo;
    var id, n := s.clients[c].target, s.hub.node;
    var r := s.hub.mapped[id];
    assert MappedInv(s, id);
    NotListed(s, c);
    var x := n.rooms[r];
    JoinEffect(n, r, c, secret, s.now);
    SendsTold(n, RoomJoin(n, r, c, id, secret, s.now), r,
              x.(conns := x.conns + [c], activeAt := s.now, status := Running), x.conns + [c], Join(c));
  }

  lemma NoJoin<R, S>(h: Hub<R, S>, id: Id, c: Id, secret: string, now: int)
    requires HubWired(h) && !Joins(h, id, secret)
    ensures JoinRoom(h, id, c, secret, now) == h
  {
  }

  lemma LeaveSaid<R, S>(s: State<R, S>, r: R, c: Id)
    requires Inv(s) && OpenAt(s, r)
    ensures var x := s.hub.node.rooms[r];
            SaidTo(s.hub.node, RoomLeave(s.hub.node, r, c, x.address, s.now), r, Without(x.conns, c), Leave(c))
  {
    hide RoomInv, MemberInv, ClientInv, MappedInv, OrderInv, ListOk, SessionOk, RoomOk, RoomLeave, Sends, SaidTo;
    LeaveEffect(s.hub.node, r, c, s.now);
    SendsTold(s.hub.node, RoomLeave(s.hub.node, r, c, s.hub.node.rooms[r].address, s.now), r,
              Left(s.hub.node.rooms[r], c, s.now), Without(s.hub.node.rooms[r].conns, c), Leave(c));
  }

  /** Leaving room `r` of `n` turns it into `n2`. */
  ghost predicate LeaveHeard<R, S>(n: Node<R, S>, n2: Node<R, S>, r: R, c: Id, now: int)
    requires r in n.rooms
  {
    && n2.sess.Keys == n.sess.Keys && n2.rooms.Keys == n.rooms.Keys
    && (forall t :: t in n.sess ==> n2.sess[t] == SessionAfter(n.sess[t], LeaveWords(n.rooms[r], c, now, n.sess[t].conn), n.down))
    && (forall q :: q in n.rooms && n2.rooms[q].status != Closed ==>
          n2.rooms[q].inbox == RoomAfter(n.rooms[q], LeaveWords(n.rooms[r], c, now, n.rooms[q].address), n.down).inbox)
  }

  lemma DepartTold<R, S>(s: State<R, S>, c: Id)
    requires Inv(s) && Enabled(s, Departing(c))
    ensures HeardBy(s, DoLeave(s, c), Departing(c))
  {
    var id := s.clients[c].target;
    if id in s.hub.mapped {
      LeaveRoomHeard(s, id, c);
      DepartHeard(s, c);
    } else {
      NoLeave(s, id, c);
      hide Inv, LeaveRoom, HeardBy;
      NothingHeard(s, DoLeave(s, c), Departing(c));
    }
  }

  lemma DepartHeard<R, S>(s: State<R, S>, c: Id)
    requires HubWired(s.hub) && Enabled(s, Departing(c)) && s.clients[c].target in s.hub.mapped
    requires LeaveHeard(s.hub.node, LeaveRoom(s.hub, s.clients[c].target, c, s.now).node, s.hub.mapped[s.clients[c].target], c, s.now)
    ensures HeardBy(s, DoLeave(s, c), Departing(c))
  {
    hide LeaveRoom, LeaveWords;
  }

  lemma LeaveRoomHeard<R, S>(s: State<R, S>, id: Id, c: Id)
    requires Inv(s) && id in s.hub.mapped
    ensures LeaveHeard(s.hub.node, LeaveRoom(s.hub, id, c, s.now).node, s.hub.mapped[id], c, s.now)
  {
    assert MappedInv(s, id);
    hide RoomInv, MemberInv, ClientInv, OrderInv, MappedInv, ListOk, SessionOk, RoomOk, RoomLeave, Reap, SaidTo, ReapHeard, LeaveHeard;
    var r := s.hub.mapped[id];
    var s1 := WithNode(s, RoomLeave(s.hub.node, r, c, id, s.now));
    LeaveSaid(s, r, c);
    LeaveNodeKeeps(s, r, c);
    assert HeardOnly(Left(s.hub.node.rooms[r], c, s.now), s1.hub.node.rooms[r]);
    ReapTold(s1, r);
    ReapKeeps(s1, r);
    hide HeardOnly, Left, Verdict, Inv;
    LeaveThenReap(s.hub.node, s1.hub.node, Reap(s1.hub, r, s.now).node, r, c, s.now);
  }

  lemma LeaveThenReap<R, S>(n: Node<R, S>, n1: Node<R, S>, n2: Node<R, S>, r: R, c: Id, now: int)
    requires r in n.rooms && SaidTo(n, n1, r, Without(n.rooms[r].conns, c), Leave(c)) && r in n1.rooms
    requires HeardOnly(Left(n.rooms[r], c, now), n1.rooms[r]) && ReapHeard(n1, n2, r, now)
    requires r in n2.rooms && HeardOnly(Swept(n1.rooms[r], now), n2.rooms[r])
    ensures LeaveHeard(n, n2, r, c, now)
  {
    var x := Left(n.rooms[r], c, now);
    SweptHeard(x, n1.rooms[r], now);
    hide Verdict, Left, SessionAfter, RoomAfter, To;
    forall a ensures ReapWords(n1.rooms[r], now, a) == ReapWords(x, now, a) { }
    hide ReapWords;
    forall t | t in n.sess
      ensures n2.sess[t] == SessionAfter(n.sess[t], LeaveWords(n.rooms[r], c, now, n.sess[t].conn), n.down)
    {
      SessionAfterBoth(n.sess[t], To(Without(n.rooms[r].conns, c), Leave(c), n.sess[t].conn), ReapWords(x, now, n.sess[t].conn), n.down);
    }
    LeaveThenReapRooms(n, n1, n2, r, c, now);
  }

  lemma LeaveThenReapRooms<R, S>(n: Node<R, S>, n1: Node<R, S>, n2: Node<R, S>, r: R, c: Id, now: int)
    requires r in n.rooms && SaidTo(n, n1, r, Without(n.rooms[r].conns, c), Leave(c)) && r in n1.rooms
    requires HeardOnly(Left(n.rooms[r], c, now), n1.rooms[r]) && ReapHeard(n1, n2, r, now)
    requires r in n2.rooms && HeardOnly(Swept(n1.rooms[r], now), n2.rooms[r])
    requires forall a :: ReapWords(n1.rooms[r], now, a) == ReapWords(Left(n.rooms[r], c, now), now, a)
    ensures forall q :: q in n.rooms && n2.rooms[q].status != Closed ==>
              n2.rooms[q].inbox == RoomAfter(n.rooms[q], LeaveWords(n.rooms[r], c, now, n.rooms[q].address), n.down).inbox
  {
    var x := Left(n.rooms[r], c, now);
    SweptHeard(x, n1.rooms[r], now);
    hide Verdict, To, RoomAfter;
    forall q | q in n.rooms && n2.rooms[q].status != Closed
      ensures n2.rooms[q].inbox == RoomAfter(n.rooms[q], LeaveWords(n.rooms[r], c, now, n.rooms[q].address), n.down).inbox
    {
      LeaveThenReapRoom(n.rooms[q], n1.rooms[q], n2.rooms[q], x, To(Without(n.rooms[r].conns, c), Leave(c), n.rooms[q].address), now, n.down, q == r);
    }
  }

  lemma LeaveThenReapRoom(y: Room, y1: Room, y2: Room, x: Room, ms: seq<Message>, now: int, down: set<Id>, own: bool)
    requires y1.inbox == RoomAfter(y, ms, down).inbox && y1.address == y.address
    requires !own ==> y1 == RoomAfter(y, ms, down)
    requires own ==> Verdict(x, now).None?
    requires y2 == RoomAfter(y1, ReapWords(x, now, y.address), down)
    ensures y2.inbox == RoomAfter(y, ms + ReapWords(x, now, y.address), down).inbox
  {
    hide Verdict;
    RoomAfterBoth(y, ms, ReapWords(x, now, y.address), down);
    if own { assert ms + [] == ms; }
  }

  lemma EmitTold<R, S>(s: State<R, S>, a: Id, m: Message, r: R)
    requires Inv(s)
    ensures SaidTo(s.hub.node, Emit(s.hub.node, a, m), r, [a], m)
  {
    hide RoomInv, MemberInv, ClientInv, MappedInv, OrderInv, ListOk, SessionOk, RoomOk, Emit, Hears, HearsRoom;
    var n, n' := s.hub.node, Emit(s.hub.node, a, m);
    EmitOnTidy(n, a, m);
    EmitTidy(n, a, m);
    forall t | t in n.sess ensures SessionAfter(n.sess[t], To([a], m, n.sess[t].conn), n.down) == Hears(n.sess[t], [a], m, n.down) {
      HearsTo(n.sess[t], [a], m, n.down);
    }
    forall q | q in n.rooms ensures RoomAfter(n.rooms[q], To([a], m, n.rooms[q].address), n.down) == HearsRoom(n.rooms[q], [a], m, n.down) {
      HearsRoomTo(n.rooms[q], [a], m, n.down);
    }
  }

  /** Every step but a session's own reading and ending leaves sessions and open rooms as they are after
      hearing what it tells their addresses. */
  lemma StepTold<R, S>(s: State<R, S>, e: Step<R, S>)
    requires Inv(s) && Enabled(s, e) && !e.Take? && !e.EndSession?
    ensures HeardBy(s, Apply(s, e), e)
  {
    hide RoomInv, MemberInv, ClientInv, MappedInv, OrderInv, Tidy, HeardBy, Emit, RemoveRoom, Sweep, LeaveRoom, JoinRoom, CreateRoom;
    match e
    case Remove(id) => RemoveTold(s, id);
    case Sweeping(order) => SweepingTold(s, order);
    case Joining(c, secret) => JoinTold(s, c, secret);
    case Departing(c) => DepartTold(s, c);
    case SendAll(c, data, includeSelf) => SendTold(s, e);
    case SendOne(c, data, to) => SendTold(s, e);
    case Deliver(r) => SendTold(s, e);
    case Create(_, _, _, _, _) => CreateTold(s, e);
    case _ => QuietTold(s, e);
  }

  lemma Disabled<R, S>(s: State<R, S>, e: Step<R, S>)
    requires HubWired(s.hub) && !Enabled(s, e)
    ensures Apply(s, e) == s
  {
  }

  lemma SessionTold<R, S>(s: State<R, S>, e: Step<R, S>, t: S)
    requires Inv(s) && Enabled(s, e) && !e.Take? && !e.EndSession? && t in s.hub.node.sess
    ensures t in Apply(s, e).hub.node.sess
    ensures Apply(s, e).hub.node.sess[t] == SessionAfter(s.hub.node.sess[t], Words(s, e, s.hub.node.sess[t].conn), s.hub.node.down)
  {
    hide Apply, Words, SessionAfter, RoomAfter;
    StepTold(s, e);
    hide Inv, Enabled;
  }

  lemma SendTold<R, S>(s: State<R, S>, e: Step<R, S>)
    requires Inv(s) && Enabled(s, e) && (e.SendAll? || e.SendOne? || e.Deliver?)
    ensures HeardBy(s, Apply(s, e), e)
  {
    var a := if e.SendAll? then s.clients[e.c].target else if e.SendOne? then e.to else s.work[e.r][0];
    var m := if e.SendAll? then Broadcast(e.data, e.c, e.includeSelf)
             else if e.SendOne? then Unicast(e.data, e.c, Some(e.to)) else Current(s.hub.node, e.r);
    var r := if e.Deliver? then e.r else s.clients[e.c].phase.room;
    EmitTold(s, a, m, r);
    hide Inv, SaidTo, HeardBy, Emit, To, Noted;
    SaidHeard(s, Apply(s, e), e, r, [a], m);
  }

  lemma CreateTold<R, S>(s: State<R, S>, e: Step<R, S>)
    requires Inv(s) && Enabled(s, e) && e.Create?
    ensures HeardBy(s, Apply(s, e), e)
  {
    hide RoomInv, MemberInv, ClientInv, MappedInv, OrderInv, ListOk, SessionOk, RoomOk, HeardBy;
    if Creates(s.hub, e.full, e.id, e.useSecret, e.secret) {
      CreateEffect(s.hub, e.full, e.r, e.id, e.useSecret, e.secret, s.now);
      hide CreateRoom;
      NothingHeard(s, Apply(s, e), e);
    } else {
      NothingHeard(s, Apply(s, e), e);
    }
  }

  lemma QuietTold<R, S>(s: State<R, S>, e: Step<R, S>)
    requires Inv(s) && Enabled(s, e)
    requires e.Tick? || e.Network? || e.Connect? || e.Register? || e.LeaveLost? || e.Begin?
    ensures HeardBy(s, Apply(s, e), e)
  {
    hide RoomInv, MemberInv, ClientInv, MappedInv, OrderInv, Tidy, HeardBy;
    NothingHeard(s, Apply(s, e), e);
  }
}
