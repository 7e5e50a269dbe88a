/** Loops that others may interrupt. */
module Interleaving {
  import opened Messages
  import opened Nodes
  import opened Monotone
  import opened Cluster

  // Emission while the table grows, and a room's consumer taken step by step.

  // ---- emission over a growing table ----

  ghost predicate EachKnown<R, S>(n: Node<R, S>, late: seq<seq<Listener<R, S>>>) {
    forall i :: 0 <= i < |late| ==> AllKnown(n, late[i])
  }

  lemma StillKnown<R, S>(n: Node<R, S>, n': Node<R, S>, ls: seq<Listener<R, S>>, late: seq<seq<Listener<R, S>>>)
    requires SameObjects(n, n') && AllKnown(n, ls) && EachKnown(n, late) && ls != [] && late != []
    ensures AllKnown(n', ls[1..]) && EachKnown(n', late[1..])
  {
    assert forall l :: l in ls[1..] ==> l in ls && Known(n, l);
    forall i | 0 <= i < |late[1..]| ensures AllKnown(n', late[1..][i]) { assert AllKnown(n, late[i + 1]); }
  }

  ghost function AddAll<R, S>(n: Node<R, S>, a: Id, late: seq<Listener<R, S>>): (n': Node<R, S>)
    requires Wired(n) && AllKnown(n, late)
    ensures Wired(n') && SameObjects(n, n')
    decreases |late|
  {
    if late == [] then n
    else
      assert late[0] in late && forall l :: l in late[1..] ==> l in late;
      AddAll(AddListener(n, a, late[0]), a, late[1..])
  }

  /** EmitLocal's loop when listeners are registered under its address before each turn. */
  ghost function EmitWhile<R, S>(n: Node<R, S>, a: Id, ls: seq<Listener<R, S>>, m: Message, late: seq<seq<Listener<R, S>>>): (n': Node<R, S>)
    requires Wired(n) && AllKnown(n, ls) && |late| == |ls| && EachKnown(n, late)
    ensures Wired(n') && SameObjects(n, n')
    decreases |ls|
  {
    if ls == [] then n
    else
      assert AllKnown(n, late[0]) && Known(n, ls[0]);
      var n1 := Turn(AddAll(n, a, late[0]), a, ls[0], m);
      StillKnown(n, n1, ls, late);
      EmitWhile(n1, a, ls[1..], m, late[1..])
  }

  function Flat<T>(xs: seq<seq<T>>): seq<T> {
    if xs == [] then [] else xs[0] + Flat(xs[1..])
  }

  lemma WithoutSnoc<T>(xs: seq<T>, y: T, x: T)
    requires x != y
    ensures Without(xs + [y], x) == Without(xs, x) + [y]
  {
    if xs == [] {
    } else {
      WithoutSnoc(xs[1..], y, x);
      assert (xs + [y])[1..] == xs[1..] + [y];
    }
  }

  lemma RemoveAdd<R, S>(n: Node<R, S>, a: Id, b: Id, k: Listener<R, S>, l: Listener<R, S>)
    requires k != l
    ensures RemoveListener(AddListener(n, a, k), b, l) == AddListener(RemoveListener(n, b, l), a, k)
  {
    WithoutSnoc(ListenersAt(n, a), k, l);
    var t, t' := RemoveListener(AddListener(n, a, k), b, l).table, AddListener(RemoveListener(n, b, l), a, k).table;
    assert t.Keys == t'.Keys;
    assert forall c :: c in t ==> t[c] == t'[c];
    assert t == t';
  }

  lemma TurnAdd<R, S>(n: Node<R, S>, a: Id, l: Listener<R, S>, m: Message, k: Listener<R, S>)
    requires Wired(n) && Known(n, l) && Known(n, k) && k != l
    ensures Turn(AddListener(n, a, k), a, l, m) == AddListener(Turn(n, a, l, m), a, k)
  {
    hide Without;
    if IsClose(n, l) {
      RemoveAdd(n, a, a, k, l);
    } else if l.SessL? && m.Close? && !n.sess[l.sess].inbox.Full() {
      var x := n.sess[l.sess];
      var x1 := x.(inbox := x.inbox.Put(m));
      var n1 := n.(sess := n.sess[l.sess := x1.(status := Closed, closes := x1.closes + 1)]);
      assert n.sess[l.sess := x1][l.sess := x1.(status := Closed, closes := x1.closes + 1)] == n1.sess;
      RemoveAdd(n1, a, x.conn, k, l);
    }
  }

  lemma {:induction false} TurnAddAll<R, S>(n: Node<R, S>, a: Id, l: Listener<R, S>, m: Message, late: seq<Listener<R, S>>)
    requires Wired(n) && Known(n, l) && AllKnown(n, late) && l !in late
    ensures AllKnown(Turn(n, a, l, m), late)
    ensures Turn(AddAll(n, a, late), a, l, m) == AddAll(Turn(n, a, l, m), a, late)
    decreases |late|
  {
    if late == [] {
    } else {
      assert late[0] in late && forall k :: k in late[1..] ==> k in late;
      TurnAdd(n, a, l, m, late[0]);
      TurnAddAll(AddListener(n, a, late[0]), a, l, m, late[1..]);
    }
  }

  lemma {:induction false} EmitAddAll<R, S>(n: Node<R, S>, a: Id, ls: seq<Listener<R, S>>, m: Message, late: seq<Listener<R, S>>)
    requires Wired(n) && AllKnown(n, ls) && AllKnown(n, late) && Apart(late, ls)
    ensures AllKnown(EmitTo(n, a, ls, m), late)
    ensures EmitTo(AddAll(n, a, late), a, ls, m) == AddAll(EmitTo(n, a, ls, m), a, late)
    decreases |ls|
  {
    if ls == [] {
    } else {
      assert ls[0] in ls && forall l :: l in ls[1..] ==> l in ls;
      TurnAddAll(n, a, ls[0], m, late);
      EmitAddAll(Turn(n, a, ls[0], m), a, ls[1..], m, late);
    }
  }

  lemma {:induction false} AddAllTwice<R, S>(n: Node<R, S>, a: Id, xs: seq<Listener<R, S>>, ys: seq<Listener<R, S>>)
    requires Wired(n) && AllKnown(n, xs) && AllKnown(n, ys)
    ensures AllKnown(n, xs + ys) && AddAll(AddAll(n, a, xs), a, ys) == AddAll(n, a, xs + ys)
    decreases |xs|
  {
    if xs == [] {
      assert xs + ys == ys;
    } else {
      assert xs[0] in xs && forall k :: k in xs[1..] ==> k in xs;
      assert (xs + ys)[1..] == xs[1..] + ys;
      AddAllTwice(AddListener(n, a, xs[0]), a, xs[1..], ys);
    }
  }

  predicate Apart<T(==)>(xs: seq<T>, ls: seq<T>) {
    forall l :: l in xs ==> l !in ls
  }

  lemma ApartParts<T>(late: seq<seq<T>>, ls: seq<T>)
    requires late != [] && ls != [] && Apart(Flat(late), ls)
    ensures ls[0] !in late[0] && Apart(late[0], ls[1..]) && Apart(Flat(late[1..]), ls[1..])
  {
    assert ls[0] in ls && forall l :: l in ls[1..] ==> l in ls;
  }

  lemma FlatKnown<R, S>(n: Node<R, S>, late: seq<seq<Listener<R, S>>>)
    requires EachKnown(n, late)
    ensures AllKnown(n, Flat(late))
  {
  }

  /** Listeners that register while an emission is under way hear nothing of it and change nothing for
      the listeners of the snapshot; afterwards they are registered behind them, in order. */
  lemma {:induction false} LateListeners<R, S>(
    n: Node<R, S>, a: Id, ls: seq<Listener<R, S>>, m: Message, late: seq<seq<Listener<R, S>>>)
    requires Wired(n) && AllKnown(n, ls) && |late| == |ls| && EachKnown(n, late)
    requires Apart(Flat(late), ls)
    ensures AllKnown(EmitTo(n, a, ls, m), Flat(late))
    ensures EmitWhile(n, a, ls, m, late) == AddAll(EmitTo(n, a, ls, m), a, Flat(late))
    decreases |ls|
  {
    if ls == [] {
    } else {
      hide Turn, AddAll, IsClose, SameObjects, Apart, Wired;
      ApartParts(late, ls);
      assert ls[0] in ls && AllKnown(n, late[0]);
      var n1 := Turn(n, a, ls[0], m);
      var n2 := AddAll(n1, a, late[0]);
      StillKnown(n, n1, ls, late);
      StillKnown(n, n2, ls, late);
      TurnAddAll(n, a, ls[0], m, late[0]);
      FlatKnown(n, late[1..]);
      EmitAddAll(n1, a, ls[1..], m, late[0]);
      LateListeners(n2, a, ls[1..], m, late[1..]);
      AddAllTwice(EmitTo(n1, a, ls[1..], m), a, late[0], Flat(late[1..]));
    }
  }

  // ---- the consumer ----

  /** A hand-over leaves the message being handed over where it is. */
  lemma StillCurrent<R, S>(s: State<R, S>, r: R)
    requires HubWired(s.hub) && r in s.hub.node.rooms && r in s.work && s.work[r] != []
    requires 0 < s.hub.node.rooms[r].inbox.taken <= |s.hub.node.rooms[r].inbox.placed|
    ensures var n' := DoDeliver(s, r).hub.node;
            && r in n'.rooms && 0 < n'.rooms[r].inbox.taken <= |n'.rooms[r].inbox.placed|
            && Current(n', r) == Current(s.hub.node, r)
  {
    hide Emit, Noted;
    EmitGrows(s.hub.node, s.work[r][0], Current(s.hub.node, r));
    assert RoomGrows(s.hub.node.rooms[r], DoDeliver(s, r).hub.node.rooms[r]);
  }

  /** Deliver steps of room `r` until nobody is left to get the message. */
  ghost function DeliverAll<R, S>(s: State<R, S>, r: R): (s': State<R, S>)
    requires HubWired(s.hub) && r in s.hub.node.rooms && r in s.work
    requires s.work[r] != [] ==> 0 < s.hub.node.rooms[r].inbox.taken <= |s.hub.node.rooms[r].inbox.placed|
    decreases if r in s.work then |s.work[r]| else 0
  {
    if s.work[r] == [] then s
    else
      StillCurrent(s, r);
      DeliverAll(DoDeliver(s, r), r)
  }

  lemma {:induction false} DeliverAllEmits<R, S>(s: State<R, S>, r: R, m: Message)
    requires HubWired(s.hub) && r in s.hub.node.rooms && r in s.work
    requires s.work[r] != [] ==>
               0 < s.hub.node.rooms[r].inbox.taken <= |s.hub.node.rooms[r].inbox.placed| && m == Current(s.hub.node, r)
    ensures DeliverAll(s, r).hub.node == EmitEach(s.hub.node, s.work[r], m)
    decreases |s.work[r]|
  {
    hide Emit, Noted;
    if s.work[r] == [] {
    } else {
      StillCurrent(s, r);
      DeliverAllEmits(DoDeliver(s, r), r, m);
    }
  }

  /** A Begin step followed by its Deliver steps without interruption is one turn of the consumer loop:
      take a message, then SendMessage it. */
  lemma ConsumeIsBeginDeliver<R, S>(s: State<R, S>, r: R)
    requires HubWired(s.hub) && Enabled(s, Begin(r))
    ensures var x := s.hub.node.rooms[r];
            var taken := SetRoom(s.hub.node, r, x.(inbox := Inbox(x.inbox.placed, x.inbox.taken + 1)));
            DeliverAll(DoBegin(s, r), r).hub.node
            == SendMessage(taken, r, x.inbox.placed[x.inbox.taken], s.now)
  {
    hide DeliverAll, Emit;
    var n := s.hub.node;
    var x := n.rooms[r];
    var m := x.inbox.placed[x.inbox.taken];
    var s1 := DoBegin(s, r);
    DeliverAllEmits(s1, r, m);
    var taken := SetRoom(n, r, x.(inbox := Inbox(x.inbox.placed, x.inbox.taken + 1)));
    assert n.rooms[r := taken.rooms[r]][r := BeginRoom(x, s.now)] == n.rooms[r := BeginRoom(x, s.now)];
    if m.Unknown? {
      assert s1.hub.node == taken;
    } else {
      assert SetRoom(taken, r, taken.rooms[r].(activeAt := s.now)) == s1.hub.node;
    }
  }
}
