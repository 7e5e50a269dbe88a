/** Nodes whose listener table and objects agree, and the exact effect of each operation on them. */
module Consistency {
  import opened Messages
  import opened Nodes
  import opened Emission

  ghost function AddressOf<R, S>(n: Node<R, S>, l: Listener<R, S>): Id
    requires Known(n, l)
  {
    match l
    case RoomL(r) => n.rooms[r].address
    case SessL(s) => n.sess[s].conn
  }

  ghost predicate ListOk<R, S>(n: Node<R, S>, a: Id) {
    && Distinct(ListenersAt(n, a))
    && forall l :: l in ListenersAt(n, a) ==> Known(n, l) && AddressOf(n, l) == a
  }

  /** The done channel was closed once if the object is closed, and never otherwise. */
  predicate DoneOnce(status: Status, closes: nat) {
    closes == if status == Closed then 1 else 0
  }

  /** A session is registered under its connection exactly while it is open. */
  ghost predicate SessionOk<R, S>(n: Node<R, S>, s: S)
    requires s in n.sess
  {
    var x := n.sess[s];
    && x.inbox.Valid() && x.status != Running && DoneOnce(x.status, x.closes)
    && (SessL(s) in ListenersAt(n, x.conn) <==> x.status != Closed)
  }

  /** A room is registered under its address exactly while it is open. */
  ghost predicate RoomOk<R, S>(n: Node<R, S>, r: R)
    requires r in n.rooms
  {
    var x := n.rooms[r];
    && x.inbox.Valid() && DoneOnce(x.status, x.closes)
    && (RoomL(r) in ListenersAt(n, x.address) <==> x.status != Closed)
    && Distinct(x.conns)
  }

  ghost predicate Tidy<R, S>(n: Node<R, S>) {
    && Wired(n)
    && (forall a {:trigger ListOk(n, a)} :: a in n.table ==> ListOk(n, a))
    && (forall s {:trigger SessionOk(n, s)} :: s in n.sess ==> SessionOk(n, s))
    && (forall r {:trigger RoomOk(n, r)} :: r in n.rooms ==> RoomOk(n, r))
  }

  /** How session `x` fares when `m` is emitted to the connections `cs` while `down` is unreachable. */
  function Hears(x: Session, cs: seq<Id>, m: Message, down: set<Id>): Session {
    if x.conn in cs && x.conn !in down && x.status != Closed then HeardBySession(x, m) else x
  }

  /** How room `x` fares: a room whose address is among the connections listens under it as well. */
  function HearsRoom(x: Room, cs: seq<Id>, m: Message, down: set<Id>): Room {
    if x.address in cs && x.address !in down && x.status != Closed then HeardByRoom(x, m) else x
  }

  lemma EmitOnTidy<R, S>(n: Node<R, S>, a: Id, m: Message)
    requires Tidy(n)
    ensures forall s :: s in n.sess ==> Emit(n, a, m).sess[s] == Hears(n.sess[s], [a], m, n.down)
    ensures forall r :: r in n.rooms ==> Emit(n, a, m).rooms[r] == HearsRoom(n.rooms[r], [a], m, n.down)
  {
    var ls := ListenersAt(n, a);
    assert ListOk(n, a);
    if a !in n.down {
      forall s | s in n.sess ensures Emit(n, a, m).sess[s] == Hears(n.sess[s], [a], m, n.down) {
        EmitSession(n, a, ls, m, s);
        assert SessionOk(n, s);
      }
      forall r | r in n.rooms ensures Emit(n, a, m).rooms[r] == HearsRoom(n.rooms[r], [a], m, n.down) {
        EmitRoom(n, a, ls, m, r);
        assert RoomOk(n, r);
      }
    }
  }

  lemma EmitTableOnTidy<R, S>(n: Node<R, S>, a: Id, m: Message, b: Id, l: Listener<R, S>)
    requires Tidy(n) && Known(n, l)
    ensures l in ListenersAt(Emit(n, a, m), b)
       <==> l in ListenersAt(n, b) && !(l.SessL? && Emit(n, a, m).sess[l.sess].status == Closed)
  {
    var ls := ListenersAt(n, a);
    EmitOnTidy(n, a, m);
    if a in n.table { assert ListOk(n, a); }
    if b in n.table { assert ListOk(n, b); }
    if l.SessL? { assert SessionOk(n, l.sess); } else { assert RoomOk(n, l.room); }
    if a !in n.down { EmitTable(n, a, ls, m, b, l); }
  }

  lemma EmitKeepsKnown<R, S>(n: Node<R, S>, a: Id, m: Message, b: Id, l: Listener<R, S>)
    requires Wired(n) && l in ListenersAt(Emit(n, a, m), b)
    ensures Known(Emit(n, a, m), l) && Known(n, l)
  {
    var n' := Emit(n, a, m);
    assert b in n'.table && Wired(n');
  }

  lemma EmitListMember<R, S>(n: Node<R, S>, a: Id, m: Message, b: Id, l: Listener<R, S>)
    requires Tidy(n) && l in ListenersAt(Emit(n, a, m), b)
    ensures Known(Emit(n, a, m), l) && AddressOf(Emit(n, a, m), l) == b
  {
    EmitKeepsKnown(n, a, m, b, l);
    EmitTableOnTidy(n, a, m, b, l);
    assert ListOk(n, b);
    EmitOnTidy(n, a, m);
  }

  lemma EmitListOk<R, S>(n: Node<R, S>, a: Id, m: Message, b: Id)
    requires Tidy(n)
    ensures ListOk(Emit(n, a, m), b)
  {
    forall l | l in ListenersAt(Emit(n, a, m), b)
      ensures Known(Emit(n, a, m), l) && AddressOf(Emit(n, a, m), l) == b
    {
      EmitListMember(n, a, m, b, l);
    }
    assert Distinct(ListenersAt(Emit(n, a, m), b)) by {
      if b in n.table { assert ListOk(n, b); }
      if a !in n.down { EmitDistinct(n, a, ListenersAt(n, a), m, b); }
    }
  }

  lemma EmitSessionOk<R, S>(n: Node<R, S>, a: Id, m: Message, s: S)
    requires Tidy(n) && s in n.sess
    ensures SessionOk(Emit(n, a, m), s)
  {
    assert SessionOk(n, s);
    EmitOnTidy(n, a, m);
    EmitTableOnTidy(n, a, m, n.sess[s].conn, SessL(s));
  }

  lemma EmitRoomOk<R, S>(n: Node<R, S>, a: Id, m: Message, r: R)
    requires Tidy(n) && r in n.rooms
    ensures RoomOk(Emit(n, a, m), r)
  {
    assert RoomOk(n, r);
    EmitOnTidy(n, a, m);
    EmitTableOnTidy(n, a, m, n.rooms[r].address, RoomL(r));
  }

  lemma EmitTidy<R, S>(n: Node<R, S>, a: Id, m: Message)
    requires Tidy(n)
    ensures Tidy(Emit(n, a, m))
  {
    var n' := Emit(n, a, m);
    forall b | b in n'.table ensures ListOk(n', b) { EmitListOk(n, a, m, b); }
    forall s | s in n'.sess ensures SessionOk(n', s) { EmitSessionOk(n, a, m, s); }
    forall r | r in n'.rooms ensures RoomOk(n', r) { EmitRoomOk(n, a, m, r); }
  }

  lemma {:induction false} EmitEachTidy<R, S>(n: Node<R, S>, cs: seq<Id>, m: Message)
    requires Tidy(n)
    ensures Tidy(EmitEach(n, cs, m))
    decreases |cs|
  {
    if cs == [] {
    } else {
      EmitTidy(n, cs[0], m);
      EmitEachTidy(Emit(n, cs[0], m), cs[1..], m);
    }
  }

  lemma HearsOneByOne(x: Session, c: Id, rest: seq<Id>, m: Message, down: set<Id>)
    requires c !in rest
    ensures Hears(Hears(x, [c], m, down), rest, m, down) == Hears(x, [c] + rest, m, down)
  {
  }

  lemma HearsRoomOneByOne(x: Room, c: Id, rest: seq<Id>, m: Message, down: set<Id>)
    requires c !in rest
    ensures HearsRoom(HearsRoom(x, [c], m, down), rest, m, down) == HearsRoom(x, [c] + rest, m, down)
  {
  }

  /** Emitting to distinct connections: each open, reachable session hears the message once. */
  lemma {:induction false} EmitEachHeard<R, S>(n: Node<R, S>, cs: seq<Id>, m: Message, s: S)
    requires Tidy(n) && Distinct(cs) && s in n.sess
    ensures EmitEach(n, cs, m).sess[s] == Hears(n.sess[s], cs, m, n.down)
    decreases |cs|
  {
    if cs == [] {
    } else {
      var n1, rest := Emit(n, cs[0], m), cs[1..];
      assert cs == [cs[0]] + rest;
      EmitTidy(n, cs[0], m);
      assert n1.sess[s] == Hears(n.sess[s], [cs[0]], m, n.down) by { EmitOnTidy(n, cs[0], m); }
      EmitEachHeard(n1, rest, m, s);
      HearsOneByOne(n.sess[s], cs[0], rest, m, n.down);
    }
  }

  /** So does each open, reachable room whose address is one of them. */
  lemma {:induction false} EmitEachHeardByRoom<R, S>(n: Node<R, S>, cs: seq<Id>, m: Message, r: R)
    requires Tidy(n) && Distinct(cs) && r in n.rooms
    ensures EmitEach(n, cs, m).rooms[r] == HearsRoom(n.rooms[r], cs, m, n.down)
    decreases |cs|
  {
    if cs == [] {
    } else {
      var n1, rest := Emit(n, cs[0], m), cs[1..];
      assert cs == [cs[0]] + rest;
      EmitTidy(n, cs[0], m);
      assert n1.rooms[r] == HearsRoom(n.rooms[r], [cs[0]], m, n.down) by { EmitOnTidy(n, cs[0], m); }
      EmitEachHeardByRoom(n1, rest, m, r);
      HearsRoomOneByOne(n.rooms[r], cs[0], rest, m, n.down);
    }
  }
}
