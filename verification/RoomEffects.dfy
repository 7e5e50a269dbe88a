/** The exact effect of every room and manager operation on a tidy node: which room changes and
    how, and who hears what. Tidiness is kept, so the effects can be chained. */
module RoomEffects {
  import opened Messages
  import opened Nodes
  import opened Consistency

  /** `n'` is `n` with room `r` replaced by `x'`, and then `m` heard at the addresses `cs`. */
  ghost predicate Sends<R, S>(n: Node<R, S>, n': Node<R, S>, r: R, x': Room, cs: seq<Id>, m: Message) {
    && r in n.rooms && n'.rooms.Keys == n.rooms.Keys && n'.sess.Keys == n.sess.Keys && n'.down == n.down
    && (forall q :: q in n'.rooms ==> n'.rooms[q] == HearsRoom(if q == r then x' else n.rooms[q], cs, m, n.down))
    && (forall s :: s in n.sess ==> n'.sess[s] == Hears(n.sess[s], cs, m, n.down))
  }

  lemma SetRoomTidy<R, S>(n: Node<R, S>, r: R, x': Room)
    requires Tidy(n) && r in n.rooms
    requires var x := n.rooms[r];
             && x'.address == x.address && x'.inbox.Valid() && DoneOnce(x'.status, x'.closes)
             && (x'.status == Closed <==> x.status == Closed)
    requires Distinct(x'.conns)
    ensures Tidy(SetRoom(n, r, x'))
  {
    var n' := SetRoom(n, r, x');
    assert RoomOk(n, r);
    forall a | a in n'.table ensures ListOk(n', a) { assert ListOk(n, a); }
    forall s | s in n'.sess ensures SessionOk(n', s) { assert SessionOk(n, s); }
    forall q | q in n'.rooms ensures RoomOk(n', q) { assert RoomOk(n, q); }
  }

  /** Two changes of one room before the message goes out are one. */
  lemma SetThenSends<R, S>(n: Node<R, S>, r: R, x1: Room, n2: Node<R, S>, x2: Room, cs: seq<Id>, m: Message)
    requires Wired(n) && r in n.rooms && Sends(SetRoom(n, r, x1), n2, r, x2, cs, m)
    ensures Sends(n, n2, r, x2, cs, m)
  {
    hide Hears, HearsRoom;
    var n1 := SetRoom(n, r, x1);
    forall q | q in n2.rooms ensures n2.rooms[q] == HearsRoom(if q == r then x2 else n.rooms[q], cs, m, n.down) {
      if q != r { assert n1.rooms[q] == n.rooms[q]; }
    }
  }

  lemma EmitEachSends<R, S>(n: Node<R, S>, r: R, cs: seq<Id>, m: Message)
    requires Tidy(n) && r in n.rooms && Distinct(cs)
    ensures Tidy(EmitEach(n, cs, m)) && Sends(n, EmitEach(n, cs, m), r, n.rooms[r], cs, m)
  {
    hide EmitEach, Hears, HearsRoom, ListOk, SessionOk, RoomOk;
    EmitEachTidy(n, cs, m);
    forall s | s in n.sess ensures EmitEach(n, cs, m).sess[s] == Hears(n.sess[s], cs, m, n.down) {
      EmitEachHeard(n, cs, m, s);
    }
    forall q | q in n.rooms ensures EmitEach(n, cs, m).rooms[q] == HearsRoom(n.rooms[q], cs, m, n.down) {
      EmitEachHeardByRoom(n, cs, m, q);
    }
  }

  lemma SendEffect<R, S>(n: Node<R, S>, r: R, m: Message, now: int)
    requires Tidy(n) && r in n.rooms && !m.Unknown?
    ensures Tidy(SendMessage(n, r, m, now))
    ensures Sends(n, SendMessage(n, r, m, now), r, n.rooms[r].(activeAt := now), Recipients(m, n.rooms[r].conns), m)
  {
    hide EmitEach, Recipients, Sends;
    var x := n.rooms[r];
    var cs := Recipients(m, x.conns);
    assert RoomOk(n, r);
    SetRoomTidy(n, r, x.(activeAt := now));
    EmitEachSends(SetRoom(n, r, x.(activeAt := now)), r, cs, m);
    SetThenSends(n, r, x.(activeAt := now), SendMessage(n, r, m, now), x.(activeAt := now), cs, m);
  }

  lemma DistinctAppend<T>(xs: seq<T>, x: T)
    requires Distinct(xs) && x !in xs
    ensures Distinct(xs + [x])
  {
  }

  lemma AddMemberTidy<R, S>(n: Node<R, S>, r: R, c: Id)
    requires Tidy(n) && r in n.rooms && c !in n.rooms[r].conns
    ensures Tidy(SetRoom(n, r, n.rooms[r].(conns := n.rooms[r].conns + [c])))
  {
    var x := n.rooms[r];
    assert RoomOk(n, r);
    DistinctAppend(x.conns, c);
    SetRoomTidy(n, r, x.(conns := x.conns + [c]));
  }

  lemma RunTidy<R, S>(n: Node<R, S>, r: R)
    requires Tidy(n) && r in n.rooms && n.rooms[r].status != Closed
    ensures Tidy(SetRoom(n, r, n.rooms[r].(status := Running)))
  {
    assert RoomOk(n, r);
    SetRoomTidy(n, r, n.rooms[r].(status := Running));
  }

  /** An open room hears the same whether it is set running before or after. */
  lemma SendsThenRun<R, S>(n: Node<R, S>, n2: Node<R, S>, r: R, x2: Room, cs: seq<Id>, m: Message)
    requires Sends(n, n2, r, x2, cs, m) && Wired(n2) && x2.status != Closed && r in n2.rooms
    ensures Sends(n, SetRoom(n2, r, n2.rooms[r].(status := Running)), r, x2.(status := Running), cs, m)
  {
  }

  lemma JoinEffect<R, S>(n: Node<R, S>, r: R, c: Id, secret: string, now: int)
    requires Tidy(n) && r in n.rooms && c !in n.rooms[r].conns && n.rooms[r].status != Closed
    requires JoinAllowed(n.rooms[r], n.rooms[r].address, secret)
    ensures Tidy(RoomJoin(n, r, c, n.rooms[r].address, secret, now))
    ensures var x := n.rooms[r];
            Sends(n, RoomJoin(n, r, c, x.address, secret, now), r,
                  x.(conns := x.conns + [c], activeAt := now, status := Running), x.conns + [c], Join(c))
  {
    hide SendMessage, Hears, Sends, ListOk, SessionOk, RoomOk;
    var x := n.rooms[r];
    var x1 := x.(conns := x.conns + [c]);
    var n1 := SetRoom(n, r, x1);
    AddMemberTidy(n, r, c);
    SendEffect(n1, r, Join(c), now);
    var n2 := SendMessage(n1, r, Join(c), now);
    SetThenSends(n, r, x1, n2, x1.(activeAt := now), x1.conns, Join(c));
    SendsStatus(n, n2, r, x1.(activeAt := now), x1.conns, Join(c));
    RunTidy(n2, r);
    SendsThenRun(n, n2, r, x1.(activeAt := now), x1.conns, Join(c));
  }

  lemma SendsStatus<R, S>(n: Node<R, S>, n2: Node<R, S>, r: R, x2: Room, cs: seq<Id>, m: Message)
    requires Sends(n, n2, r, x2, cs, m)
    ensures r in n2.rooms && n2.rooms[r].status == x2.status
  {
  }

  lemma LeaveEffect<R, S>(n: Node<R, S>, r: R, c: Id, now: int)
    requires Tidy(n) && r in n.rooms
    ensures var x := n.rooms[r];
            var n' := RoomLeave(n, r, c, x.address, now);
            && Tidy(n')
            && Sends(n, n', r, x.(conns := Without(x.conns, c), activeAt := now), Without(x.conns, c), Leave(c))
  {
    var x := n.rooms[r];
    assert RoomOk(n, r);
    var x1 := x.(conns := Without(x.conns, c));
    SetRoomTidy(n, r, x1);
    SendEffect(SetRoom(n, r, x1), r, Leave(c), now);
    SetThenSends(n, r, x1, RoomLeave(n, r, c, x.address, now), x1.(activeAt := now), x1.conns, Leave(c));
  }

  /** The two halves of retiring, marking the room and leaving the table, keep the node tidy together. */
  lemma RetiredTidy<R, S>(n: Node<R, S>, r: R)
    requires Tidy(n) && r in n.rooms && n.rooms[r].status != Closed
    ensures Tidy(Retired(n, r))
  {
    var n2 := Retired(n, r);
    assert RoomOk(n, r);
    forall a | a in n2.table ensures ListOk(n2, a) { assert ListOk(n, a); }
    forall s | s in n2.sess ensures SessionOk(n2, s) { assert SessionOk(n, s); }
    forall q | q in n2.rooms ensures RoomOk(n2, q) { assert RoomOk(n, q); }
  }

  lemma CloseEffect<R, S>(n: Node<R, S>, r: R, now: int)
    requires Tidy(n) && r in n.rooms && n.rooms[r].status != Closed
    ensures Tidy(RoomClose(n, r, now))
    ensures var x := n.rooms[r];
            Sends(n, RoomClose(n, r, now), r, x.(status := Closed, closes := x.closes + 1, activeAt := now), x.conns,
                  Close(x.address, x.why))
  {
    hide Sends, SendMessage;
    var x := n.rooms[r];
    var x1 := x.(status := Closed, closes := x.closes + 1);
    RetiredTidy(n, r);
    SendEffect(Retired(n, r), r, Close(x.address, x.why), now);
    RetiredSends(n, r, RoomClose(n, r, now), x1.(activeAt := now), x.conns, Close(x.address, x.why));
  }

  lemma RetiredSends<R, S>(n: Node<R, S>, r: R, n2: Node<R, S>, x2: Room, cs: seq<Id>, m: Message)
    requires Wired(n) && r in n.rooms && Sends(Retired(n, r), n2, r, x2, cs, m)
    ensures Sends(n, n2, r, x2, cs, m)
  {
    hide Hears, HearsRoom;
    forall q | q in n2.rooms ensures n2.rooms[q] == HearsRoom(if q == r then x2 else n.rooms[q], cs, m, n.down) {
      if q != r { assert Retired(n, r).rooms[q] == n.rooms[q]; }
    }
  }

  /** A second Close changes nothing. */
  lemma CloseAgain<R, S>(n: Node<R, S>, r: R, now: int, later: int)
    requires Tidy(n) && r in n.rooms
    ensures RoomClose(RoomClose(n, r, now), r, later) == RoomClose(n, r, now)
  {
    if n.rooms[r].status != Closed { CloseEffect(n, r, now); }
  }

  /** Sessions may already listen under the address of a new room. */
  lemma Enlist<R, S>(n: Node<R, S>, r: R, x: Room)
    requires Tidy(n) && r !in n.rooms
    requires x.status == Init && x.closes == 0 && x.conns == [] && x.inbox == EMPTY_INBOX
    ensures Tidy(AddListener(n.(rooms := n.rooms[r := x]), x.address, RoomL(r)))
  {
    var n1 := n.(rooms := n.rooms[r := x]);
    var n2 := AddListener(n1, x.address, RoomL(r));
    forall a | a in n2.table ensures ListOk(n2, a) {
      if a in n.table { assert ListOk(n, a); }
      assert RoomL(r) !in ListenersAt(n, a);
      if a == x.address { DistinctAppend(ListenersAt(n, a), RoomL(r)); }
    }
    forall s | s in n2.sess ensures SessionOk(n2, s) { assert SessionOk(n, s); }
    forall q | q in n2.rooms ensures RoomOk(n2, q) {
      if q != r { assert RoomOk(n, q); }
    }
  }

  lemma CreateEffect<R, S>(h: Hub<R, S>, full: bool, r: R, id: Id, useSecret: bool, secret: string, now: int)
    requires HubWired(h) && Tidy(h.node) && r !in h.node.rooms
    requires Creates(h, full, id, useSecret, secret)
    ensures var h' := CreateRoom(h, full, r, id, useSecret, secret, now);
            && Tidy(h'.node) && h'.mapped == h.mapped[id := r]
            && h'.node.rooms == h.node.rooms[r := NewRoom(id, useSecret, secret, now)]
            && h'.node.sess == h.node.sess && h'.node.down == h.node.down
  {
    var x := NewRoom(id, useSecret, secret, now);
    var n1 := h.node.(rooms := h.node.rooms[r := x]);
    var n2 := AddListener(n1, id, RoomL(r));
    Enlist(h.node, r, x);
    SendEffect(n2, r, Start(id), now);
  }

  /** A session object that starts: its inbox is empty and it is registered under its connection. */
  lemma StartSessionTidy<R, S>(n: Node<R, S>, s: S, x: Session)
    requires Tidy(n) && s !in n.sess && x.status == Init && x.closes == 0 && x.inbox == EMPTY_INBOX
    ensures Tidy(AddListener(n.(sess := n.sess[s := x]), x.conn, SessL(s)))
  {
    var n1 := n.(sess := n.sess[s := x]);
    var n2 := AddListener(n1, x.conn, SessL(s));
    forall a | a in n2.table ensures ListOk(n2, a) {
      if a in n.table { assert ListOk(n, a); }
      assert SessL(s) !in ListenersAt(n, a);
      if a == x.conn { DistinctAppend(ListenersAt(n, a), SessL(s)); }
    }
    forall t | t in n2.sess ensures SessionOk(n2, t) {
      if t != s { assert SessionOk(n, t); }
    }
    forall q | q in n2.rooms ensures RoomOk(n2, q) { assert RoomOk(n, q); }
  }

  lemma CloseSessionTidy<R, S>(n: Node<R, S>, s: S)
    requires Tidy(n) && s in n.sess
    ensures Tidy(CloseSession(n, s))
  {
    var n2 := CloseSession(n, s);
    assert SessionOk(n, s);
    forall a | a in n2.table ensures ListOk(n2, a) { assert ListOk(n, a); }
    forall t | t in n2.sess ensures SessionOk(n2, t) { assert SessionOk(n, t); }
    forall q | q in n2.rooms ensures RoomOk(n2, q) { assert RoomOk(n, q); }
  }
}
