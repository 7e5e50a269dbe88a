/** What no operation ever takes back: queued messages, identities, and a closed status. These
    lemmas need no invariant, so they also hold of the states inside an operation. */
module Monotone {
  import opened Messages
  import opened Nodes

  /** The only moves of a room's status. */
  predicate StatusMove(a: Status, b: Status) {
    a == b || (a == Init && b == Running) || b == Closed
  }

  predicate RoomGrows(x: Room, x': Room) {
    && x'.address == x.address && x'.createdAt == x.createdAt && x'.useSecret == x.useSecret && x'.secret == x.secret
    && x'.inbox.taken == x.inbox.taken && x.inbox.placed <= x'.inbox.placed
    && StatusMove(x.status, x'.status)
  }

  /** A closed session's inbox never gets another message. */
  predicate SessionGrows(x: Session, x': Session) {
    && x'.conn == x.conn && x'.target == x.target
    && x'.inbox.taken == x.inbox.taken && x.inbox.placed <= x'.inbox.placed
    && (x.status == Closed ==> x'.status == Closed && x'.inbox == x.inbox)
  }

  ghost predicate Grows<R, S>(n: Node<R, S>, n': Node<R, S>) {
    && n'.rooms.Keys == n.rooms.Keys && n'.sess.Keys == n.sess.Keys
    && (forall r {:trigger n'.rooms[r]} :: r in n.rooms ==> RoomGrows(n.rooms[r], n'.rooms[r]))
    && (forall t {:trigger n'.sess[t]} :: t in n.sess ==> SessionGrows(n.sess[t], n'.sess[t]))
  }

  lemma GrowsTrans<R, S>(a: Node<R, S>, b: Node<R, S>, c: Node<R, S>)
    requires Grows(a, b) && Grows(b, c)
    ensures Grows(a, c)
  {
    forall r | r in a.rooms ensures RoomGrows(a.rooms[r], c.rooms[r]) {
      assert RoomGrows(a.rooms[r], b.rooms[r]) && RoomGrows(b.rooms[r], c.rooms[r]);
    }
    forall t | t in a.sess ensures SessionGrows(a.sess[t], c.sess[t]) {
      assert SessionGrows(a.sess[t], b.sess[t]) && SessionGrows(b.sess[t], c.sess[t]);
    }
  }

  /** Growth in which no room changes its status, as in every emission. */
  ghost predicate Emitted<R, S>(n: Node<R, S>, n': Node<R, S>) {
    && Grows(n, n')
    && forall r {:trigger n'.rooms[r]} :: r in n.rooms ==> n'.rooms[r].status == n.rooms[r].status
  }

  lemma EmittedTrans<R, S>(a: Node<R, S>, b: Node<R, S>, c: Node<R, S>)
    requires Emitted(a, b) && Emitted(b, c)
    ensures Emitted(a, c)
  {
    GrowsTrans(a, b, c);
    forall r | r in a.rooms ensures c.rooms[r].status == a.rooms[r].status {
      assert b.rooms[r].status == a.rooms[r].status;
    }
  }

  lemma ListenGrows<R, S>(n: Node<R, S>, l: Listener<R, S>, m: Message)
    requires Known(n, l) && !IsClose(n, l)
    ensures Emitted(n, Listen(n, l, m))
  {
    var n' := Listen(n, l, m);
    match l
    case RoomL(q) =>
      assert forall t :: t in n.sess ==> n'.sess[t] == n.sess[t];
    case SessL(u) =>
      assert n'.rooms == n.rooms;
      assert forall t :: t in n.sess && t != u ==> n'.sess[t] == n.sess[t];
  }

  lemma TurnGrows<R, S>(n: Node<R, S>, a: Id, l: Listener<R, S>, m: Message)
    requires Wired(n) && Known(n, l)
    ensures Emitted(n, Turn(n, a, l, m))
  {
    if !IsClose(n, l) { ListenGrows(n, l, m); }
  }

  lemma {:induction false} EmitToGrows<R, S>(n: Node<R, S>, a: Id, ls: seq<Listener<R, S>>, m: Message)
    requires Wired(n) && AllKnown(n, ls)
    ensures Emitted(n, EmitTo(n, a, ls, m))
    decreases |ls|
  {
    if ls == [] {
    } else {
      var n1 := Turn(n, a, ls[0], m);
      assert AllKnown(n1, ls[1..]) by { assert forall l :: l in ls[1..] ==> l in ls && Known(n, l); }
      TurnGrows(n, a, ls[0], m);
      hide Turn, Emitted, Known;
      EmitToGrows(n1, a, ls[1..], m);
      EmittedTrans(n, n1, EmitTo(n1, a, ls[1..], m));
    }
  }

  lemma EmitGrows<R, S>(n: Node<R, S>, a: Id, m: Message)
    requires Wired(n)
    ensures Emitted(n, Emit(n, a, m))
  {
    if a !in n.down { EmitToGrows(n, a, ListenersAt(n, a), m); }
  }

  lemma {:induction false} EmitEachGrows<R, S>(n: Node<R, S>, cs: seq<Id>, m: Message)
    requires Wired(n)
    ensures Emitted(n, EmitEach(n, cs, m))
    decreases |cs|
  {
    if cs == [] {
    } else {
      var n1 := Emit(n, cs[0], m);
      EmitGrows(n, cs[0], m);
      EmitEachGrows(n1, cs[1..], m);
      EmittedTrans(n, n1, EmitEach(n1, cs[1..], m));
    }
  }

  lemma OneRoomGrows<R, S>(n: Node<R, S>, n': Node<R, S>, r: R, x: Room)
    requires r in n.rooms && RoomGrows(n.rooms[r], x) && n'.rooms == n.rooms[r := x] && n'.sess == n.sess
    ensures Grows(n, n')
  {
  }

  lemma SetGrows<R, S>(n: Node<R, S>, r: R, x: Room)
    requires Wired(n) && r in n.rooms && RoomGrows(n.rooms[r], x)
    ensures Grows(n, SetRoom(n, r, x))
  {
    OneRoomGrows(n, SetRoom(n, r, x), r, x);
  }

  lemma SendGrows<R, S>(n: Node<R, S>, r: R, m: Message, now: int)
    requires Wired(n) && r in n.rooms
    ensures Emitted(n, SendMessage(n, r, m, now))
  {
    if !m.Unknown? {
      var x := n.rooms[r];
      var n1 := SetRoom(n, r, x.(activeAt := now));
      assert Emitted(n, n1);
      EmitEachGrows(n1, Recipients(m, x.conns), m);
      EmittedTrans(n, n1, SendMessage(n, r, m, now));
    }
  }

  lemma CloseGrows<R, S>(n: Node<R, S>, r: R, now: int)
    requires Wired(n) && r in n.rooms
    ensures Grows(n, RoomClose(n, r, now))
  {
    var x := n.rooms[r];
    if x.status != Closed {
      OneRoomGrows(n, Retired(n, r), r, x.(status := Closed, closes := x.closes + 1));
      SendGrows(Retired(n, r), r, Close(x.address, x.why), now);
      GrowsTrans(n, Retired(n, r), RoomClose(n, r, now));
    }
  }

  /** Only a room that is not closed is ever joined, so joining cannot reopen one. */
  lemma JoinGrows<R, S>(n: Node<R, S>, r: R, c: Id, address: Id, secret: string, now: int)
    requires Wired(n) && r in n.rooms && n.rooms[r].status != Closed
    ensures Grows(n, RoomJoin(n, r, c, address, secret, now))
  {
    var x := n.rooms[r];
    if JoinAllowed(x, address, secret) {
      var n1 := SetRoom(n, r, x.(conns := x.conns + [c]));
      var n2 := SendMessage(n1, r, Join(c), now);
      SetGrows(n, r, x.(conns := x.conns + [c]));
      SendGrows(n1, r, Join(c), now);
      SetGrows(n2, r, n2.rooms[r].(status := Running));
      GrowsTrans(n, n1, n2);
      GrowsTrans(n, n2, RoomJoin(n, r, c, address, secret, now));
    }
  }

  lemma LeaveGrows<R, S>(n: Node<R, S>, r: R, c: Id, address: Id, now: int)
    requires Wired(n) && r in n.rooms
    ensures Grows(n, RoomLeave(n, r, c, address, now))
  {
    var x := n.rooms[r];
    if x.address == address {
      var x1 := x.(conns := Without(x.conns, c));
      SetGrows(n, r, x1);
      SendGrows(SetRoom(n, r, x1), r, Leave(c), now);
      GrowsTrans(n, SetRoom(n, r, x1), RoomLeave(n, r, c, address, now));
    }
  }

  lemma ReapGrows<R, S>(h: Hub<R, S>, r: R, now: int)
    requires HubWired(h) && r in h.node.rooms
    ensures Grows(h.node, Reap(h, r, now).node)
  {
    var x := h.node.rooms[r];
    var n1 := SetRoom(h.node, r, Judged(x, now));
    SetGrows(h.node, r, Judged(x, now));
    if ShouldRemove(x, now) {
      CloseGrows(n1, r, now);
      GrowsTrans(h.node, n1, RoomClose(n1, r, now));
    }
  }

  lemma {:induction false} SweepGrows<R, S>(h: Hub<R, S>, order: seq<R>, now: int)
    requires HubWired(h) && forall r :: r in order ==> r in h.node.rooms
    ensures Grows(h.node, Sweep(h, order, now).node)
    decreases |order|
  {
    if order == [] {
    } else {
      var h1 := Reap(h, order[0], now);
      ReapGrows(h, order[0], now);
      SweepGrows(h1, order[1..], now);
      GrowsTrans(h.node, h1.node, Sweep(h1, order[1..], now).node);
    }
  }
}
