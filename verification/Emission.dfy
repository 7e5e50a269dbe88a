/** What one emission does to every session, every room and the listener table. */
module Emission {
  import opened Messages
  import opened Nodes

  /** A session whose turn came while it was open. */
  function HeardBySession(x: Session, m: Message): Session {
    if x.inbox.Full() then x
    else
      var x' := x.(inbox := x.inbox.Put(m));
      if m.Close? then x'.(status := Closed, closes := x.closes + 1) else x'
  }

  function HeardByRoom(x: Room, m: Message): Room {
    x.(inbox := x.inbox.Put(m))
  }

  /** `l`'s turn takes it off the list at `b`: it was closed already, or hearing `m` makes it close. */
  ghost predicate Drops<R, S>(n: Node<R, S>, a: Id, m: Message, b: Id, l: Listener<R, S>)
    requires Known(n, l)
  {
    if IsClose(n, l) then b == a
    else l.SessL? && m.Close? && !n.sess[l.sess].inbox.Full() && b == n.sess[l.sess].conn
  }

  lemma {:induction false} EmitSession<R, S>(n: Node<R, S>, a: Id, ls: seq<Listener<R, S>>, m: Message, s: S)
    requires Wired(n) && Distinct(ls) && AllKnown(n, ls)
    requires s in n.sess
    ensures EmitTo(n, a, ls, m).sess[s]
         == if SessL(s) in ls && n.sess[s].status != Closed then HeardBySession(n.sess[s], m) else n.sess[s]
    decreases |ls|
  {
    if ls == [] {
    } else {
      var l0, rest := ls[0], ls[1..];
      var n1 := Turn(n, a, l0, m);
      assert ls == [l0] + rest;
      assert AllKnown(n1, rest) by { assert forall l :: l in rest ==> l in ls && Known(n, l); }
      assert n1.sess[s] == if l0 == SessL(s) && n.sess[s].status != Closed then HeardBySession(n.sess[s], m) else n.sess[s];
      EmitSession(n1, a, rest, m, s);
    }
  }

  lemma {:induction false} EmitRoom<R, S>(n: Node<R, S>, a: Id, ls: seq<Listener<R, S>>, m: Message, r: R)
    requires Wired(n) && Distinct(ls) && AllKnown(n, ls)
    requires r in n.rooms
    ensures EmitTo(n, a, ls, m).rooms[r]
         == if RoomL(r) in ls && n.rooms[r].status != Closed then HeardByRoom(n.rooms[r], m) else n.rooms[r]
    decreases |ls|
  {
    if ls == [] {
    } else {
      var l0, rest := ls[0], ls[1..];
      var n1 := Turn(n, a, l0, m);
      assert ls == [l0] + rest;
      assert AllKnown(n1, rest) by { assert forall l :: l in rest ==> l in ls && Known(n, l); }
      assert n1.rooms[r] == if l0 == RoomL(r) && n.rooms[r].status != Closed then HeardByRoom(n.rooms[r], m) else n.rooms[r];
      EmitRoom(n1, a, rest, m, r);
    }
  }

  lemma TurnTable<R, S>(n: Node<R, S>, a: Id, l0: Listener<R, S>, m: Message, b: Id, l: Listener<R, S>)
    requires Wired(n) && Known(n, l) && Known(n, l0)
    ensures l in ListenersAt(Turn(n, a, l0, m), b) <==> l in ListenersAt(n, b) && !(l == l0 && Drops(n, a, m, b, l))
    ensures l != l0 ==> Drops(Turn(n, a, l0, m), a, m, b, l) == Drops(n, a, m, b, l)
  {
  }

  /** Exactly the listeners of the snapshot that were closed, or close themselves, leave the table. */
  lemma {:induction false} EmitTable<R, S>(n: Node<R, S>, a: Id, ls: seq<Listener<R, S>>, m: Message, b: Id, l: Listener<R, S>)
    requires Wired(n) && Distinct(ls) && AllKnown(n, ls) && Known(n, l)
    ensures l in ListenersAt(EmitTo(n, a, ls, m), b) <==> l in ListenersAt(n, b) && !(l in ls && Drops(n, a, m, b, l))
    decreases |ls|
  {
    if ls == [] {
    } else {
      var l0, rest := ls[0], ls[1..];
      var n1 := Turn(n, a, l0, m);
      assert ls == [l0] + rest;
      assert AllKnown(n1, rest) by { assert forall l :: l in rest ==> l in ls && Known(n, l); }
      TurnTable(n, a, l0, m, b, l);
      EmitTable(n1, a, rest, m, b, l);
    }
  }

  lemma {:induction false} EmitDistinct<R, S>(n: Node<R, S>, a: Id, ls: seq<Listener<R, S>>, m: Message, b: Id)
    requires Wired(n) && AllKnown(n, ls) && Distinct(ListenersAt(n, b))
    ensures Distinct(ListenersAt(EmitTo(n, a, ls, m), b))
    decreases |ls|
  {
    if ls == [] {
    } else {
      var n1 := Turn(n, a, ls[0], m);
      assert AllKnown(n1, ls[1..]) by { assert forall l :: l in ls[1..] ==> l in ls && Known(n, l); }
      EmitDistinct(n1, a, ls[1..], m, b);
    }
  }
}
