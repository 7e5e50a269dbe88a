/** Every step of the cluster keeps the invariant, so it holds in every run.

    The steps are taken in turn: a room that closes or is judged and the sweep over all of them, a
    connection moving to its next phase, sessions that start and end, new rooms, joins, leaves, the
    emissions clients ask for, the two halves of a consumer's turn, a session reading its inbox, and
    the clock. Each has lemmas for the part of the invariant about one room, one member, one
    connection or one session, and one lemma that puts the parts together; `StepKeeps` chooses
    between them and `RunInv` is the induction over a run. */
module Preservation {
  import opened Messages
  import opened Nodes
  import opened Consistency
  import opened RoomEffects
  import opened Cluster
  import opened Invariant
  import opened Notices

  // ---- closing and reaping ----

  ghost function Shut<R, S>(h: Hub<R, S>, r: R, now: int): (h': Hub<R, S>)
    requires HubWired(h) && r in h.node.rooms
    ensures HubWired(h') && SameObjects(h.node, h'.node)
  {
    Hub(RoomClose(h.node, r, now), h.mapped - {h.node.rooms[r].address})
  }

  ghost predicate OpenAt<R, S>(s: State<R, S>, r: R) {
    r in s.hub.node.rooms && s.hub.node.rooms[r].status != Closed
  }

  lemma HeardTwice(x: Room, x1: Room, x2: Room)
    requires HeardOnly(x, x1) && HeardOnly(x1, x2)
    ensures HeardOnly(x, x2)
  {
  }

  /** Changing one room and then it again, up to messages placed in inboxes at the second time. */
  lemma ButSet<R>(rooms: map<R, Room>, rooms2: map<R, Room>, r: R, x1: Room, x2: Room)
    requires r in rooms && RoomsBut(rooms[r := x1], rooms2, r, x2)
    ensures RoomsBut(rooms, rooms2, r, x2)
  {
    forall q | q in rooms ensures HeardOnly(if q == r then x2 else rooms[q], rooms2[q]) {
      assert q in rooms[r := x1] && (q != r ==> rooms[r := x1][q] == rooms[q]);
    }
  }

  lemma ShutKeeps<R, S>(s: State<R, S>, r: R)
    requires Inv(s) && OpenAt(s, r)
    ensures Inv(s.(hub := Shut(s.hub, r, s.now)))
    ensures RoomsBut(s.hub.node.rooms, Shut(s.hub, r, s.now).node.rooms, r,
                     s.hub.node.rooms[r].(status := Closed, closes := 1, activeAt := s.now))
    ensures Shut(s.hub, r, s.now).mapped == s.hub.mapped - {s.hub.node.rooms[r].address}
  {
    var x := s.hub.node.rooms[r];
    var x' := x.(status := Closed, closes := 1, activeAt := s.now);
    ShutNotice(s, r);
    hide Inv, Notice, Shut, RoomsBut;
    NoticeKeeps(s, Shut(s.hub, r, s.now), r, x', x.conns, Close(x.address, x.why));
  }

  lemma ShutNotice<R, S>(s: State<R, S>, r: R)
    requires Inv(s) && OpenAt(s, r)
    ensures var x, h' := s.hub.node.rooms[r], Shut(s.hub, r, s.now);
            && Notice(s, h', r, x.(status := Closed, closes := 1, activeAt := s.now), x.conns, Close(x.address, x.why))
            && h'.mapped == s.hub.mapped - {x.address}
  {
    hide OrderInv, ClientInv, MappedInv, ListOk, SessionOk, RoomClose;
    var x := s.hub.node.rooms[r];
    assert RoomInv(s, r) && RoomOk(s.hub.node, r);
    forall c | c in x.conns ensures Joined(s, c, r) { assert MemberInv(s, r, c); }
    hide RoomInv, MemberInv, RoomOk, Sends;
    CloseEffect(s.hub.node, r, s.now);
  }

  lemma JudgeKeeps<R, S>(s: State<R, S>, r: R)
    requires Inv(s) && r in s.hub.node.rooms
    ensures Inv(WithNode(s, SetRoom(s.hub.node, r, Judged(s.hub.node.rooms[r], s.now))))
  {
    var x := s.hub.node.rooms[r];
    var x' := Judged(x, s.now);
    assert RoomInv(s, r) && RoomOk(s.hub.node, r);
    SetRoomTidy(s.hub.node, r, x');
    NoticeKeeps(s, s.hub.(node := SetRoom(s.hub.node, r, x')), r, x', [], Unknown);
  }

  /** What a sweep leaves of a room. */
  function Swept(x: Room, now: int): Room {
    if Verdict(x, now).Some? then x.(why := Verdict(x, now).value, status := Closed, closes := 1, activeAt := now) else x
  }

  lemma SweptHeard(x: Room, x': Room, now: int)
    requires HeardOnly(x, x')
    ensures HeardOnly(Swept(x, now), Swept(x', now)) && Verdict(x', now) == Verdict(x, now)
  {
  }

  /** Reaping touches one room: it stays if its verdict is to stay, else it is unmapped and closed. */
  ghost predicate Reaped<R, S>(h: Hub<R, S>, h': Hub<R, S>, r: R, now: int)
    requires r in h.node.rooms
  {
    var x := h.node.rooms[r];
    && RoomsBut(h.node.rooms, h'.node.rooms, r, Swept(x, now))
    && h'.mapped == if Verdict(x, now).Some? then h.mapped - {x.address} else h.mapped
  }

  lemma ReapKeeps<R, S>(s: State<R, S>, r: R)
    requires Inv(s) && OpenAt(s, r)
    ensures Inv(s.(hub := Reap(s.hub, r, s.now))) && Reaped(s.hub, Reap(s.hub, r, s.now), r, s.now)
  {
    hide RoomInv, MemberInv, OrderInv, ClientInv, MappedInv, ListOk, SessionOk, RoomOk;
    var x := s.hub.node.rooms[r];
    var s1 := WithNode(s, SetRoom(s.hub.node, r, Judged(x, s.now)));
    JudgeKeeps(s, r);
    if Verdict(x, s.now).Some? {
      ShutKeeps(s1, r);
      assert Reap(s.hub, r, s.now) == Shut(s1.hub, r, s.now);
      ButSet(s.hub.node.rooms, Shut(s1.hub, r, s.now).node.rooms, r, Judged(x, s.now), Swept(x, s.now));
    } else {
      assert s.hub.node.rooms[r := x] == s.hub.node.rooms;
    }
  }

  ghost predicate AllOpen<R, S>(s: State<R, S>, order: seq<R>) {
    forall r :: r in order ==> r in s.hub.node.rooms && OpenAt(s, r)
  }

  lemma ReapRest<R, S>(s: State<R, S>, r: R, rest: seq<R>)
    requires Inv(s) && OpenAt(s, r) && AllOpen(s, rest) && r !in rest
    ensures Inv(s.(hub := Reap(s.hub, r, s.now))) && AllOpen(s.(hub := Reap(s.hub, r, s.now)), rest)
    ensures Reaped(s.hub, Reap(s.hub, r, s.now), r, s.now)
  {
    hide RoomInv, MemberInv, ClientInv, MappedInv, OrderInv, ListOk, SessionOk, RoomOk, Reap, Swept;
    ReapKeeps(s, r);
    var s1 := s.(hub := Reap(s.hub, r, s.now));
    forall q | q in rest ensures q in s1.hub.node.rooms && OpenAt(s1, q) {
      assert HeardOnly(s.hub.node.rooms[q], s1.hub.node.rooms[q]);
    }
  }

  lemma {:induction false} SweepKeeps<R, S>(s: State<R, S>, order: seq<R>)
    requires Inv(s) && Distinct(order) && AllOpen(s, order)
    ensures Inv(s.(hub := Sweep(s.hub, order, s.now)))
    decreases |order|
  {
    hide RoomInv, MemberInv, OrderInv, ClientInv, MappedInv, ListOk, SessionOk, RoomOk, Reap, Reaped;
    if order == [] {
    } else {
      var r, rest := order[0], order[1..];
      assert r in order && order == [r] + rest;
      ReapRest(s, r, rest);
      SweepKeeps(s.(hub := Reap(s.hub, r, s.now)), rest);
    }
  }

  /** A sweep judges each mapped room once, whatever the order, and closes exactly those with a verdict. */
  lemma {:induction false} SweepEffect<R, S>(s: State<R, S>, order: seq<R>, q: R)
    requires Inv(s) && Distinct(order) && AllOpen(s, order) && q in s.hub.node.rooms
    ensures q in Sweep(s.hub, order, s.now).node.rooms
    ensures HeardOnly(if q in order then Swept(s.hub.node.rooms[q], s.now) else s.hub.node.rooms[q],
                      Sweep(s.hub, order, s.now).node.rooms[q])
    decreases |order|
  {
    hide RoomInv, MemberInv, OrderInv, ClientInv, MappedInv, ListOk, SessionOk, RoomOk, Reap, Swept, HeardOnly;
    if order == [] {
      HeardSame(s.hub.node.rooms[q]);
    } else {
      var r, rest := order[0], order[1..];
      assert r in order && order == [r] + rest;
      ReapRest(s, r, rest);
      var h1 := Reap(s.hub, r, s.now);
      SweepEffect(s.(hub := h1), rest, q);
      var x, x1, x2 := s.hub.node.rooms[q], h1.node.rooms[q], Sweep(s.hub, order, s.now).node.rooms[q];
      if q in rest {
        SweptHeard(x, x1, s.now);
        HeardTwice(Swept(x, s.now), Swept(x1, s.now), x2);
      } else {
        HeardTwice(if q == r then Swept(x, s.now) else x, x1, x2);
      }
    }
  }

  lemma HeardSame(x: Room)
    ensures HeardOnly(x, x)
  {
  }

  lemma RemoveKeeps<R, S>(s: State<R, S>, id: Id)
    requires Inv(s)
    ensures Inv(s.(hub := RemoveRoom(s.hub, id, s.now)))
  {
    hide RoomInv, MemberInv, OrderInv, ClientInv, ListOk, SessionOk, RoomOk, RoomClose;
    if id in s.hub.mapped {
      assert MappedInv(s, id);
      ShutKeeps(s, s.hub.mapped[id]);
    }
  }

  // ---- clients ----

  /** Open room `r` lists `c`. */
  ghost predicate ListedOpen<R, S>(s: State<R, S>, r: R, c: Id)
    requires r in s.hub.node.rooms
  {
    var x := s.hub.node.rooms[r];
    c in x.conns && x.status != Closed
  }

  /** A change of phase that neither claims membership nor drops the room a connection joined. */
  lemma PhaseKeeps<R, S>(s: State<R, S>, c: Id, p: Phase<R, S>)
    requires Inv(s) && c in s.clients
    requires ClientInv(SetPhase(s, c, p), c)
    requires RoomOf(p) == RoomOf(s.clients[c].phase)
          || (RoomOf(s.clients[c].phase) == None && RoomOf(p).Some?)
    requires forall r :: r in s.hub.node.rooms && ListedOpen(s, r, c) ==> Attending(p)
    ensures Inv(SetPhase(s, c, p))
  {
    var s' := SetPhase(s, c, p);
    forall q | q in s'.hub.node.rooms ensures RoomInv(s', q) { assert RoomInv(s, q); }
    forall id | id in s'.hub.mapped ensures MappedInv(s', id) { assert MappedInv(s, id); }
    forall q, d | q in s'.hub.node.rooms && q in s.work && q in s.seen ensures MemberInv(s', q, d) {
      assert MemberInv(s, q, d);
    }
    forall d | d in s'.clients ensures ClientInv(s', d) { assert ClientInv(s, d); }
    forall t | t in s'.hub.node.sess ensures OrderInv(s', t) { PhaseOrder(s, c, p, t); }
  }

  lemma PhaseOrder<R, S>(s: State<R, S>, c: Id, p: Phase<R, S>, t: S)
    requires Inv(s) && c in s.clients && t in s.hub.node.sess
    requires ClientInv(SetPhase(s, c, p), c)
    requires RoomOf(p) == RoomOf(s.clients[c].phase)
          || (RoomOf(s.clients[c].phase) == None && RoomOf(p).Some?)
    ensures OrderInv(SetPhase(s, c, p), t)
  {
    assert OrderInv(s, t);
    if s.hub.node.sess[t].conn == c && RoomOf(p) != RoomOf(s.clients[c].phase) {
      var r := RoomOf(p).value;
      assert RoomInv(s, r) && RoomOk(s.hub.node, r) && MemberInv(s, r, c);
    }
  }

  lemma ConnectKeeps<R, S>(s: State<R, S>, c: Id, target: Id)
    requires Inv(s) && c !in s.clients
    ensures Inv(s.(clients := s.clients[c := Client(target, Connecting)]))
  {
    var s' := s.(clients := s.clients[c := Client(target, Connecting)]);
    forall q | q in s'.hub.node.rooms ensures RoomInv(s', q) { assert RoomInv(s, q); }
    forall id | id in s'.hub.mapped ensures MappedInv(s', id) { assert MappedInv(s, id); }
    forall q, d | q in s'.hub.node.rooms && q in s.work && q in s.seen ensures MemberInv(s', q, d) {
      assert MemberInv(s, q, d);
    }
    forall d | d in s'.clients ensures ClientInv(s', d) { if d != c { assert ClientInv(s, d); } }
    forall t | t in s'.hub.node.sess ensures OrderInv(s', t) { assert OrderInv(s, t); }
  }

  /** A connection that has not joined is on no room's member list. */
  lemma NotListed<R, S>(s: State<R, S>, c: Id)
    requires Inv(s) && (c in s.clients ==> RoomOf(s.clients[c].phase) == None)
    ensures forall r :: r in s.hub.node.rooms ==> c !in s.hub.node.rooms[r].conns
  {
    forall r | r in s.hub.node.rooms ensures c !in s.hub.node.rooms[r].conns {
      assert RoomInv(s, r) && MemberInv(s, r, c);
    }
  }

  /** Only sessions differ between the two states. */
  ghost predicate SessionsOnly<R, S>(s: State<R, S>, s': State<R, S>) {
    && s'.hub.node.rooms == s.hub.node.rooms && s'.hub.mapped == s.hub.mapped
    && s'.clients == s.clients && s'.work == s.work && s'.seen == s.seen
    && HubWired(s'.hub) && Tidy(s'.hub.node)
  }

  lemma SessionsOnlyKeeps<R, S>(s: State<R, S>, s': State<R, S>)
    requires Inv(s) && SessionsOnly(s, s')
    requires forall c {:trigger ClientInv(s', c)} :: c in s.clients ==> ClientInv(s', c)
    requires forall t {:trigger OrderInv(s', t)} :: t in s'.hub.node.sess ==> OrderInv(s', t)
    ensures Inv(s')
  {
    forall q | q in s'.hub.node.rooms ensures RoomInv(s', q) { assert RoomInv(s, q); }
    forall id | id in s'.hub.mapped ensures MappedInv(s', id) { assert MappedInv(s, id); }
    forall q, d | q in s'.hub.node.rooms && q in s.work && q in s.seen ensures MemberInv(s', q, d) {
      assert MemberInv(s, q, d);
    }
  }

  lemma StartKeeps<R, S>(s: State<R, S>, c: Id, t: S)
    requires Inv(s) && c in s.clients && s.clients[c].phase.Connecting? && t !in s.hub.node.sess
    ensures Inv(WithNode(s, StartSession(s.hub.node, t, c, s.clients[c].target)).(got := s.got[t := []]))
  {
    var s' := WithNode(s, StartSession(s.hub.node, t, c, s.clients[c].target)).(got := s.got[t := []]);
    StartSessionTidy(s.hub.node, t, Session(c, s.clients[c].target, Init, 0, EMPTY_INBOX));
    forall d | d in s.clients ensures ClientInv(s', d) { assert ClientInv(s, d); }
    forall u | u in s'.hub.node.sess ensures OrderInv(s', u) { if u != t { assert OrderInv(s, u); } }
    SessionsOnlyKeeps(s, s');
  }

  lemma RegisterKeeps<R, S>(s: State<R, S>, c: Id, t: S)
    requires Inv(s) && c in s.clients && s.clients[c].phase.Connecting? && t !in s.hub.node.sess
    ensures Inv(DoRegister(s, c, t))
  {
    StartKeeps(s, c, t);
    var s1 := WithNode(s, StartSession(s.hub.node, t, c, s.clients[c].target)).(got := s.got[t := []]);
    assert ClientInv(s1, c);
    NotListed(s, c);
    PhaseKeeps(s1, c, Started(t));
    assert SetPhase(s1, c, Started(t)) == DoRegister(s, c, t);
  }

  /** The end of serveRoom: the session is closed and the connection is gone. */
  lemma EndSessionKeeps<R, S>(s: State<R, S>, c: Id)
    requires Inv(s) && c in s.clients && s.clients[c].phase.Leaving? && s.clients[c].phase.sess in s.hub.node.sess
    ensures Inv(DoEnd(s, c))
  {
    hide Recipients;
    var s', t := DoEnd(s, c), s.clients[c].phase.sess;
    CloseSessionTidy(s.hub.node, t);
    forall q | q in s'.hub.node.rooms ensures RoomInv(s', q) {
      hide Tidy;
      assert RoomInv(s, q);
    }
    forall id | id in s'.hub.mapped ensures MappedInv(s', id) {
      hide Tidy;
      assert MappedInv(s, id);
    }
    forall q, d | q in s'.hub.node.rooms && q in s.work && q in s.seen ensures MemberInv(s', q, d) { EndMember(s, c, q, d); }
    forall d | d in s'.clients ensures ClientInv(s', d) { EndClient(s, c, d); }
    forall u | u in s'.hub.node.sess ensures OrderInv(s', u) { EndOrder(s, c, u); }
    hide RoomInv, MappedInv, MemberInv, ClientInv, OrderInv;
  }

  lemma EndClient<R, S>(s: State<R, S>, c: Id, d: Id)
    requires Inv(s) && c in s.clients && s.clients[c].phase.Leaving? && s.clients[c].phase.sess in s.hub.node.sess
    requires d in DoEnd(s, c).clients
    ensures ClientInv(DoEnd(s, c), d)
  {
    hide OrderInv, MappedInv, RoomInv, MemberInv, Tidy;
    assert ClientInv(s, d) && ClientInv(s, c);
  }

  lemma EndOrder<R, S>(s: State<R, S>, c: Id, u: S)
    requires Inv(s) && c in s.clients && s.clients[c].phase.Leaving? && s.clients[c].phase.sess in s.hub.node.sess
    requires u in DoEnd(s, c).hub.node.sess
    ensures OrderInv(DoEnd(s, c), u)
  {
    hide ClientInv, MappedInv, RoomInv, MemberInv, Tidy, Broadcasts, Picked;
    assert OrderInv(s, u);
  }

  lemma EndMember<R, S>(s: State<R, S>, c: Id, q: R, d: Id)
    requires Inv(s) && c in s.clients && s.clients[c].phase.Leaving? && s.clients[c].phase.sess in s.hub.node.sess
    requires q in s.hub.node.rooms && q in s.work && q in s.seen
    ensures q in DoEnd(s, c).hub.node.rooms && MemberInv(DoEnd(s, c), q, d)
  {
    hide OrderInv, MappedInv, RoomInv, Tidy, Recipients;
    assert MemberInv(s, q, d) && ClientInv(s, c);
    if d in s.clients { assert ClientInv(s, d); }
  }

  // ---- rooms: create, join, leave ----

  ghost predicate NewRoomState<R, S>(s: State<R, S>, s': State<R, S>, r: R, x: Room) {
    && s' == s.(hub := s'.hub, work := s.work[r := []], seen := s.seen[r := []])
    && Tidy(s'.hub.node) && HubWired(s'.hub)
    && s'.hub.mapped == s.hub.mapped[x.address := r]
    && s'.hub.node.rooms == s.hub.node.rooms[r := x]
    && s'.hub.node.sess == s.hub.node.sess
    && x.address !in s.hub.mapped
    && x.status == Init && x.conns == [] && x.inbox == EMPTY_INBOX && r !in s.hub.node.rooms
  }

  lemma NewRoomOrder<R, S>(s: State<R, S>, s': State<R, S>, r: R, x: Room, t: S)
    requires Inv(s) && NewRoomState(s, s', r, x) && t in s.hub.node.sess
    ensures OrderInv(s', t)
  {
    hide RoomInv, MemberInv, MappedInv, ClientInv, Tidy, Broadcasts, Picked;
    assert OrderInv(s, t);
    var c := s.hub.node.sess[t].conn;
    if Unnamed(s'.hub.node, c) {
      forall q | q in s.hub.node.rooms ensures s.hub.node.rooms[q].address != c { assert s'.hub.node.rooms[q].address != c; }
    }
    if RoomOf(s.clients[c].phase).Some? { assert ClientRoom(s, c); }
  }

  /** The room object a connection joined is one of the rooms. */
  ghost predicate ClientRoom<R, S>(s: State<R, S>, c: Id) {
    c in s.clients && (RoomOf(s.clients[c].phase).Some? ==> RoomOf(s.clients[c].phase).value in s.hub.node.rooms)
  }

  lemma NewRoomKeeps<R, S>(s: State<R, S>, s': State<R, S>, r: R, x: Room)
    requires Inv(s) && NewRoomState(s, s', r, x)
    ensures Inv(s')
  {
    hide OrderInv, Tidy, Recipients;
    forall q | q in s'.hub.node.rooms ensures RoomInv(s', q) { if q != r { assert RoomInv(s, q); } }
    forall i | i in s'.hub.mapped ensures MappedInv(s', i) { if i != x.address { assert MappedInv(s, i); } }
    forall q, d | q in s'.hub.node.rooms && q in s'.work && q in s'.seen ensures MemberInv(s', q, d) {
      if q != r { assert RoomInv(s, q) && MemberInv(s, q, d); }
    }
    forall d | d in s'.clients ensures ClientInv(s', d) { assert ClientInv(s, d); }
    forall t | t in s'.hub.node.sess ensures OrderInv(s', t) { NewRoomOrder(s, s', r, x, t); }
  }

  lemma CreateKeeps<R, S>(s: State<R, S>, r: R, id: Id, useSecret: bool, secret: string, full: bool)
    requires Inv(s) && r !in s.hub.node.rooms
    ensures Inv(DoCreate(s, r, id, useSecret, secret, full))
  {
    hide RoomInv, MemberInv, MappedInv, ClientInv, OrderInv, ListOk, SessionOk, RoomOk;
    if Creates(s.hub, full, id, useSecret, secret) {
      CreateEffect(s.hub, full, r, id, useSecret, secret, s.now);
      NewRoomKeeps(s, DoCreate(s, r, id, useSecret, secret, full), r, NewRoom(id, useSecret, secret, s.now));
    }
  }

  lemma JoinKeeps<R, S>(s: State<R, S>, c: Id, secret: string)
    requires Inv(s) && c in s.clients && s.clients[c].phase.Started?
    ensures Inv(DoJoin(s, c, secret))
  {
    var target := s.clients[c].target;
    NotListed(s, c);
    if Joins(s.hub, target, secret) {
      JoinsKeeps(s, c, secret);
    } else {
      assert ClientInv(s, c);
      assert JoinRoom(s.hub, target, c, secret, s.now) == s.hub;
      PhaseKeeps(s, c, Connecting);
    }
  }

  lemma JoinsKeeps<R, S>(s: State<R, S>, c: Id, secret: string)
    requires Inv(s) && c in s.clients && s.clients[c].phase.Started?
    requires Joins(s.hub, s.clients[c].target, secret)
    ensures Inv(DoJoin(s, c, secret))
  {
    var t, r := s.clients[c].phase.sess, s.hub.mapped[s.clients[c].target];
    assert ClientInv(s, c) && MappedInv(s, s.clients[c].target);
    NotListed(s, c);
    PhaseKeeps(s, c, Serving(t, r));
    AdmitKeeps(SetPhase(s, c, Serving(t, r)), c, secret);
  }

  /** The room a connection that is served is being put on the list of. */
  ghost predicate Admits<R, S>(s: State<R, S>, c: Id, secret: string) {
    && HubWired(s.hub) && c in s.clients && s.clients[c].phase.Serving?
    && var id := s.clients[c].target;
    && Joins(s.hub, id, secret) && s.hub.mapped[id] == s.clients[c].phase.room
    && forall r :: r in s.hub.node.rooms ==> c !in s.hub.node.rooms[r].conns
  }

  lemma AdmitNotice<R, S>(s: State<R, S>, c: Id, secret: string, r: R, x: Room)
    requires Inv(s) && Admits(s, c, secret) && r == s.clients[c].phase.room && r in s.hub.node.rooms && x == s.hub.node.rooms[r]
    requires x.address == s.clients[c].target && x.status != Closed
    requires forall d :: d in x.conns ==> Joined(s, d, r)
    ensures Notice(s, JoinRoom(s.hub, s.clients[c].target, c, secret, s.now), r,
                   x.(conns := x.conns + [c], activeAt := s.now, status := Running), x.conns + [c], Message.Join(c))
  {
    hide RoomInv, MappedInv, ClientInv, MemberInv, OrderInv, ListOk, SessionOk, RoomOk, RoomJoin, Sends;
    JoinEffect(s.hub.node, r, c, secret, s.now);
    SendsIn(s.hub.node, JoinRoom(s.hub, s.clients[c].target, c, secret, s.now).node, r,
            x.(conns := x.conns + [c], activeAt := s.now, status := Running), x.conns + [c], Message.Join(c));
    forall d | d in x.conns + [c] ensures Joined(s, d, r) {
      if d != c { assert d in x.conns; }
    }
  }

  lemma SendsIn<R, S>(n: Node<R, S>, n': Node<R, S>, r: R, x': Room, cs: seq<Id>, m: Message)
    requires Sends(n, n', r, x', cs, m)
    ensures r in n.rooms
  {
  }

  lemma AdmitKeeps<R, S>(s: State<R, S>, c: Id, secret: string)
    requires Inv(s) && Admits(s, c, secret)
    ensures Inv(s.(hub := JoinRoom(s.hub, s.clients[c].target, c, secret, s.now)))
  {
    hide OrderInv, ListOk, SessionOk, RoomOk, JoinRoom, Notice;
    var id, r := s.clients[c].target, s.clients[c].phase.room;
    assert ClientInv(s, c) && MappedInv(s, id) && RoomInv(s, r);
    var x := s.hub.node.rooms[r];
    forall d | d in x.conns ensures Joined(s, d, r) { assert MemberInv(s, r, d); }
    AdmitNotice(s, c, secret, r, x);
    NoticeKeeps(s, JoinRoom(s.hub, id, c, secret, s.now), r,
                x.(conns := x.conns + [c], activeAt := s.now, status := Running), x.conns + [c], Message.Join(c));
  }

  /** The room a leave call finds, once `c` is off its list and the clock is fresh. */
  function Left(x: Room, c: Id, now: int): Room {
    x.(conns := Without(x.conns, c), activeAt := now)
  }

  lemma LeaveNodeKeeps<R, S>(s: State<R, S>, r: R, c: Id)
    requires Inv(s) && OpenAt(s, r)
    ensures var x := s.hub.node.rooms[r];
            var n' := RoomLeave(s.hub.node, r, c, x.address, s.now);
            Inv(WithNode(s, n')) && RoomsBut(s.hub.node.rooms, n'.rooms, r, Left(x, c, s.now))
  {
    hide OrderInv, ClientInv, MappedInv, ListOk, SessionOk, RoomOk, Hears, HearsRoom;
    var x := s.hub.node.rooms[r];
    LeaveEffect(s.hub.node, r, c, s.now);
    assert RoomInv(s, r);
    forall d | d in Without(x.conns, c) ensures Joined(s, d, r) { assert MemberInv(s, r, d); }
    NoticeKeeps(s, s.hub.(node := RoomLeave(s.hub.node, r, c, x.address, s.now)), r,
                x.(conns := Without(x.conns, c), activeAt := s.now), Without(x.conns, c), Message.Leave(c));
  }

  lemma LeaveRoomKeeps<R, S>(s: State<R, S>, id: Id, c: Id)
    requires Inv(s)
    ensures Inv(s.(hub := LeaveRoom(s.hub, id, c, s.now)))
    ensures id in s.hub.mapped ==> LeaveEffectAt(s, id, c, LeaveRoom(s.hub, id, c, s.now))
  {
    hide RoomInv, MemberInv, ClientInv, OrderInv, ListOk, SessionOk, RoomOk, Reap, RoomLeave;
    if id in s.hub.mapped {
      var r := s.hub.mapped[id];
      assert MappedInv(s, id);
      LeaveNodeKeeps(s, r, c);
      var s1 := WithNode(s, RoomLeave(s.hub.node, r, c, id, s.now));
      assert LeaveRoom(s.hub, id, c, s.now) == Reap(s1.hub, r, s1.now);
      LeftThenReaped(s, s1, r, c);
    }
  }

  lemma LeftThenReaped<R, S>(s: State<R, S>, s1: State<R, S>, r: R, c: Id)
    requires Inv(s1) && OpenAt(s, r) && HubWired(s.hub)
    requires s1.hub.mapped == s.hub.mapped && s1.now == s.now
    requires RoomsBut(s.hub.node.rooms, s1.hub.node.rooms, r, Left(s.hub.node.rooms[r], c, s.now))
    ensures var x := s.hub.node.rooms[r];
            var y := Left(x, c, s.now);
            var h' := Reap(s1.hub, r, s1.now);
            && Inv(s1.(hub := h'))
            && RoomsBut(s.hub.node.rooms, h'.node.rooms, r, Swept(y, s.now))
            && h'.mapped == if Verdict(y, s.now).Some? then s.hub.mapped - {y.address} else s.hub.mapped
  {
    hide RoomInv, MemberInv, ClientInv, MappedInv, OrderInv, ListOk, SessionOk, RoomOk, Reap;
    var y, y1 := Left(s.hub.node.rooms[r], c, s.now), s1.hub.node.rooms[r];
    assert HeardOnly(y, y1);
    SweptHeard(y, y1, s.now);
    ReapKeeps(s1, r);
    ButTwice(s.hub.node.rooms, s1.hub.node.rooms, Reap(s1.hub, r, s1.now).node.rooms, r, y, Swept(y1, s.now), Swept(y, s.now));
  }

  lemma ButTwice<R>(a: map<R, Room>, b: map<R, Room>, c: map<R, Room>, r: R, y: Room, z: Room, w: Room)
    requires RoomsBut(a, b, r, y) && RoomsBut(b, c, r, z) && HeardOnly(w, z)
    ensures RoomsBut(a, c, r, w)
  {
    forall q | q in a ensures HeardOnly(if q == r then w else a[q], c[q]) {
      assert HeardOnly(if q == r then y else a[q], b[q]) && HeardOnly(if q == r then z else b[q], c[q]);
    }
  }

  ghost predicate LeaveEffectAt<R, S>(s: State<R, S>, id: Id, c: Id, h': Hub<R, S>)
    requires HubWired(s.hub) && id in s.hub.mapped
  {
    var r := s.hub.mapped[id];
    var y := Left(s.hub.node.rooms[r], c, s.now);
    && RoomsBut(s.hub.node.rooms, h'.node.rooms, r, Swept(y, s.now))
    && h'.mapped == if Verdict(y, s.now).Some? then s.hub.mapped - {y.address} else s.hub.mapped
  }

  /** After the leave call no open room lists the connection. */
  lemma LeftList<R, S>(s: State<R, S>, c: Id, r: R)
    requires Inv(s) && c in s.clients && s.clients[c].phase.Serving? && r in s.hub.node.rooms
    requires Joined(s, c, r)
    ensures var h' := LeaveRoom(s.hub, s.clients[c].target, c, s.now);
            r in h'.node.rooms && (c in h'.node.rooms[r].conns ==> h'.node.rooms[r].status == Closed)
  {
    hide OrderInv, Tidy, LeaveRoom;
    var id := s.clients[c].target;
    LeaveRoomKeeps(s, id, c);
    assert ClientInv(s, c) && RoomInv(s, r);
    if id in s.hub.mapped {
      assert MappedInv(s, id);
      assert HeardOnly(if r == s.hub.mapped[id] then Swept(Left(s.hub.node.rooms[r], c, s.now), s.now) else s.hub.node.rooms[r],
                       LeaveRoom(s.hub, id, c, s.now).node.rooms[r]);
    } else {
      NoLeave(s, id, c);
    }
  }

  lemma NoLeave<R, S>(s: State<R, S>, id: Id, c: Id)
    requires HubWired(s.hub) && id !in s.hub.mapped
    ensures LeaveRoom(s.hub, id, c, s.now) == s.hub
  {
  }

  lemma LeaveKeeps<R, S>(s: State<R, S>, c: Id)
    requires Inv(s) && c in s.clients && s.clients[c].phase.Serving?
    ensures Inv(DoLeave(s, c))
  {
    hide OrderInv, Tidy;
    var id, p := s.clients[c].target, s.clients[c].phase;
    LeaveRoomKeeps(s, id, c);
    var s1 := s.(hub := LeaveRoom(s.hub, id, c, s.now));
    assert ClientInv(s, c) && ClientInv(s1, c);
    forall r | r in s1.hub.node.rooms ensures !ListedOpen(s1, r, c) {
      assert RoomInv(s1, r) && MemberInv(s1, r, c);
      if ListedOpen(s1, r, c) { LeftList(s, c, r); }
    }
    PhaseKeeps(s1, c, Leaving(p.sess, p.room, true));
  }

  lemma LeaveLostKeeps<R, S>(s: State<R, S>, c: Id)
    requires Inv(s) && c in s.clients && s.clients[c].phase.Serving?
    ensures Inv(SetPhase(s, c, Leaving(s.clients[c].phase.sess, s.clients[c].phase.room, false)))
  {
    assert ClientInv(s, c);
    forall r | r in s.hub.node.rooms && ListedOpen(s, r, c) ensures Attending(s.clients[c].phase) {
      assert RoomInv(s, r) && MemberInv(s, r, c);
    }
    PhaseKeeps(s, c, Leaving(s.clients[c].phase.sess, s.clients[c].phase.room, false));
  }

  // ---- messages ----

  lemma EmitOrder<R, S>(s: State<R, S>, a: Id, m: Message, t: S)
    requires Inv(s) && t in s.hub.node.sess && (m.Broadcast? || m.Unicast?)
    requires m.Broadcast? && Unnamed(s.hub.node, s.hub.node.sess[t].conn) ==> s.hub.node.sess[t].conn != a
    ensures OrderInv(DoEmit(s, a, m), t)
  {
    hide Emit, RoomInv, MemberInv, ClientInv, MappedInv, Tidy, Picked, Broadcasts, HearsRoom;
    var n := s.hub.node;
    var x := n.sess[t];
    EmitOnTidy(n, a, m);
    EmitUnnamed(s, a, m, x.conn);
    hide Unnamed;
    assert OrderInv(s, t);
    BroadcastsAppend(x.inbox.placed, m);
    match RoomOf(s.clients[x.conn].phase)
    case None =>
    case Some(r) =>
      EmitGrowsRoom(s, a, m, r);
      PickedStays(n.rooms[r].inbox.placed, DoEmit(s, a, m).hub.node.rooms[r].inbox.placed, s.got[t]);
  }

  lemma EmitUnnamed<R, S>(s: State<R, S>, a: Id, m: Message, c: Id)
    requires Inv(s)
    ensures Unnamed(DoEmit(s, a, m).hub.node, c) <==> Unnamed(s.hub.node, c)
  {
    hide Emit, RoomInv, MemberInv, ClientInv, MappedInv, OrderInv, ListOk, SessionOk, RoomOk, HearsRoom;
    forall q | q in s.hub.node.rooms
      ensures q in DoEmit(s, a, m).hub.node.rooms && DoEmit(s, a, m).hub.node.rooms[q].address == s.hub.node.rooms[q].address
    {
      EmitGrowsRoom(s, a, m, q);
    }
  }

  lemma EmitGrowsRoom<R, S>(s: State<R, S>, a: Id, m: Message, q: R)
    requires Inv(s) && q in s.hub.node.rooms
    ensures q in DoEmit(s, a, m).hub.node.rooms
    ensures var x, x' := s.hub.node.rooms[q], DoEmit(s, a, m).hub.node.rooms[q];
            && HeardOnly(x, x')
            && (FromClients(x.inbox.placed) && (m.Broadcast? || m.Unicast?) ==> FromClients(x'.inbox.placed))
  {
    hide Emit, OrderInv, MappedInv, RoomInv, MemberInv, ClientInv, Tidy, HearsRoom, FromClients;
    EmitOnTidy(s.hub.node, a, m);
    HearsRoomOnly(s.hub.node.rooms[q], [a], m, s.hub.node.down);
  }

  lemma EmitMember<R, S>(s: State<R, S>, a: Id, m: Message, q: R, c: Id)
    requires Inv(s) && q in s.hub.node.rooms && q in s.work && q in s.seen && (m.Broadcast? || m.Unicast?)
    ensures q in DoEmit(s, a, m).hub.node.rooms && MemberInv(DoEmit(s, a, m), q, c)
  {
    hide Emit, Recipients, Attending, OrderInv, MappedInv, RoomInv, ClientInv, Tidy;
    EmitGrowsRoom(s, a, m, q);
    assert MemberInv(s, q, c);
  }

  lemma EmitClient<R, S>(s: State<R, S>, a: Id, m: Message, c: Id)
    requires Inv(s) && c in s.clients && (m.Broadcast? || m.Unicast?)
    ensures ClientInv(DoEmit(s, a, m), c)
  {
    assert ClientInv(s, c);
    EmitOnTidy(s.hub.node, a, m);
    hide Emit, Inv, HearsRoom, FromClients;
    if RoomOf(s.clients[c].phase).Some? { EmitGrowsRoom(s, a, m, RoomOf(s.clients[c].phase).value); }
  }

  /** Emitting a broadcast to rooms, or a direct message to anyone, keeps the invariant. */
  lemma EmitKeeps<R, S>(s: State<R, S>, a: Id, m: Message)
    requires Inv(s) && (m.Broadcast? || m.Unicast?)
    requires forall t :: t in s.hub.node.sess && m.Broadcast? && Unnamed(s.hub.node, s.hub.node.sess[t].conn) ==>
               s.hub.node.sess[t].conn != a
    ensures Inv(DoEmit(s, a, m))
  {
    hide Emit, OrderInv, MemberInv, ClientInv, ListOk, SessionOk, RoomOk, Unnamed;
    var s' := DoEmit(s, a, m);
    EmitTidy(s.hub.node, a, m);
    forall q | q in s.hub.node.rooms ensures RoomInv(s', q) { EmitGrowsRoom(s, a, m, q); assert RoomInv(s, q); }
    forall c | c in s.clients ensures ClientInv(s', c) { EmitClient(s, a, m, c); }
    forall id | id in s.hub.mapped ensures MappedInv(s', id) {
      assert MappedInv(s, id);
      EmitGrowsRoom(s, a, m, s.hub.mapped[id]);
    }
    forall q, c | q in s'.hub.node.rooms && q in s.work && q in s.seen ensures MemberInv(s', q, c) {
      EmitMember(s, a, m, q, c);
    }
    forall t | t in s'.hub.node.sess ensures OrderInv(s', t) { EmitOrder(s, a, m, t); }
  }

  lemma SendAllKeeps<R, S>(s: State<R, S>, c: Id, data: string, includeSelf: bool)
    requires Inv(s) && c in s.clients && s.clients[c].phase.Serving?
    ensures Inv(DoEmit(s, s.clients[c].target, Broadcast(data, c, includeSelf)))
  {
    assert ClientInv(s, c);
    assert s.clients[c].phase.room in s.hub.node.rooms;
    EmitKeeps(s, s.clients[c].target, Broadcast(data, c, includeSelf));
  }

  ghost predicate CanBegin<R, S>(s: State<R, S>, r: R) {
    && r in s.hub.node.rooms && r in s.work && r in s.seen && s.work[r] == []
    && s.hub.node.rooms[r].inbox.taken < |s.hub.node.rooms[r].inbox.placed|
  }

  lemma BeginMember<R, S>(s: State<R, S>, r: R, q: R, c: Id)
    requires Inv(s) && CanBegin(s, r) && q in s.hub.node.rooms && q in s.work && q in s.seen
    ensures q in DoBegin(s, r).hub.node.rooms && MemberInv(DoBegin(s, r), q, c)
  {
    assert RoomInv(s, q) && MemberInv(s, q, c);
  }

  lemma BeginOrder<R, S>(s: State<R, S>, r: R, t: S)
    requires Inv(s) && CanBegin(s, r) && t in s.hub.node.sess
    ensures OrderInv(DoBegin(s, r), t)
  {
    assert OrderInv(s, t) && RoomInv(s, r) && MemberInv(s, r, s.hub.node.sess[t].conn);
  }

  lemma BeginTidy<R, S>(s: State<R, S>, r: R)
    requires Inv(s) && CanBegin(s, r)
    ensures Tidy(DoBegin(s, r).hub.node)
  {
    hide MemberInv, OrderInv, ClientInv, MappedInv;
    var x := s.hub.node.rooms[r];
    assert RoomInv(s, r) && RoomOk(s.hub.node, r);
    SetRoomTidy(s.hub.node, r, BeginRoom(x, s.now));
  }

  lemma BeginRoomInv<R, S>(s: State<R, S>, r: R, q: R)
    requires Inv(s) && CanBegin(s, r) && q in s.hub.node.rooms
    ensures q in DoBegin(s, r).hub.node.rooms && RoomInv(DoBegin(s, r), q)
  {
    hide MemberInv, OrderInv, ClientInv, MappedInv;
    assert RoomInv(s, q) && RoomOk(s.hub.node, q);
  }

  lemma BeginKeeps<R, S>(s: State<R, S>, r: R)
    requires Inv(s) && CanBegin(s, r)
    ensures Inv(DoBegin(s, r))
  {
    hide MemberInv, OrderInv, Tidy;
    var s' := DoBegin(s, r);
    BeginTidy(s, r);
    forall q | q in s'.hub.node.rooms ensures RoomInv(s', q) { BeginRoomInv(s, r, q); }
    forall id | id in s'.hub.mapped ensures MappedInv(s', id) { assert MappedInv(s, id); }
    forall q, c | q in s'.hub.node.rooms && q in s'.work && q in s'.seen ensures MemberInv(s', q, c) {
      BeginMember(s, r, q, c);
    }
    forall c | c in s'.clients ensures ClientInv(s', c) { assert ClientInv(s, c); }
    forall t | t in s'.hub.node.sess ensures OrderInv(s', t) { BeginOrder(s, r, t); }
  }

  ghost predicate CanDeliver<R, S>(s: State<R, S>, r: R) {
    && r in s.hub.node.rooms && r in s.work && s.work[r] != []
    && 0 < s.hub.node.rooms[r].inbox.taken <= |s.hub.node.rooms[r].inbox.placed|
  }

  /** Handing a room's message to its next receiver reaches that connection's sessions, and rooms made
      under the connection's id. */
  lemma DeliverEffect<R, S>(s: State<R, S>, r: R)
    requires Inv(s) && CanDeliver(s, r)
    ensures var n := s.hub.node;
            var n' := DoDeliver(s, r).hub.node;
            var c := s.work[r][0];
            && Tidy(n') && n'.rooms.Keys == n.rooms.Keys && n'.sess.Keys == n.sess.Keys && n'.down == n.down
            && Joined(s, c, r) && c in s.clients
            && (forall q :: q in n.rooms ==> n'.rooms[q] == HearsRoom(n.rooms[q], [c], Current(n, r), n.down))
            && (forall t :: t in n.sess ==> n'.sess[t] == Hears(n.sess[t], [c], Current(n, r), n.down))
  {
    hide ClientInv, MappedInv, OrderInv, ListOk, SessionOk, RoomOk, Hears, HearsRoom, Emit;
    var n, c := s.hub.node, s.work[r][0];
    assert c in s.work[r];
    assert RoomInv(s, r) && MemberInv(s, r, c);
    WorkJoined(s, r, c);
    EmitTidy(n, c, Current(n, r));
    EmitOnTidy(n, c, Current(n, r));
  }

  lemma WorkJoined<R, S>(s: State<R, S>, r: R, c: Id)
    requires Inv(s) && r in s.hub.node.rooms && r in s.work && r in s.seen && c in s.work[r]
    ensures Joined(s, c, r)
  {
    assert MemberInv(s, r, c);
  }

  /** Every room is as before but for its inbox; one that no connection is named after is as before. */
  lemma DeliverRoom<R, S>(s: State<R, S>, r: R, q: R)
    requires Inv(s) && CanDeliver(s, r) && q in s.hub.node.rooms
    ensures var x := s.hub.node.rooms[q];
            var n' := DoDeliver(s, r).hub.node;
            q in n'.rooms && HeardOnly(x, n'.rooms[q]) && (x.address !in s.clients ==> n'.rooms[q] == x)
  {
    hide RoomInv, MemberInv, ClientInv, MappedInv, OrderInv, Tidy, Hears, HearsRoom;
    DeliverEffect(s, r);
    HearsRoomOnly(s.hub.node.rooms[q], [s.work[r][0]], Current(s.hub.node, r), s.hub.node.down);
  }

  lemma PickedOne(ms: seq<Message>, ks: seq<nat>, k: nat)
    requires Below(ks, |ms|) && k < |ms|
    ensures Below(ks + [k], |ms|) && Picked(ms, ks + [k]) == Picked(ms, ks) + [ms[k]]
  {
  }

  /** Whether the next hand-over of room `r` reaches session `t`. */
  ghost predicate Reached<R, S>(s: State<R, S>, r: R, t: S)
    requires CanDeliver(s, r) && t in s.hub.node.sess
  {
    var x := s.hub.node.sess[t];
    x.conn == s.work[r][0] && x.conn !in s.hub.node.down && x.status != Closed && !x.inbox.Full()
  }

  lemma DeliverGot<R, S>(s: State<R, S>, r: R, t: S)
    requires Inv(s) && CanDeliver(s, r) && t in s.hub.node.sess
    ensures var s' := DoDeliver(s, r);
            var m := Current(s.hub.node, r);
            && t in s.got && t in s'.got && t in s'.hub.node.sess
            && s'.hub.node.sess[t].conn == s.hub.node.sess[t].conn && s'.clients == s.clients
            && s'.hub.node.sess[t].status == (if Reached(s, r, t) && m.Close? then Closed else s.hub.node.sess[t].status)
            && s'.hub.node.sess[t].inbox.placed == s.hub.node.sess[t].inbox.placed + (if Reached(s, r, t) then [m] else [])
            && s'.got[t] == s.got[t] + (if Reached(s, r, t) && m.Broadcast? then [s.hub.node.rooms[r].inbox.taken - 1] else [])
  {
    hide RoomInv, MemberInv, ClientInv, MappedInv, Tidy, HearsRoom;
    DeliverEffect(s, r);
    assert OrderInv(s, t);
  }

  lemma DeliverFrame<R, S>(s: State<R, S>, r: R)
    requires Inv(s) && CanDeliver(s, r)
    ensures Joined(s, s.work[r][0], r)
    ensures var c := s.work[r][0];
            c !in s.work[r][1..] && forall d :: d != c ==> (d in s.work[r][1..] <==> d in s.work[r])
  {
    hide MemberInv, ClientInv, MappedInv, OrderInv, Tidy;
    assert s.work[r][0] in s.work[r];
    assert RoomInv(s, r);
    WorkJoined(s, r, s.work[r][0]);
    assert s.work[r] == [s.work[r][0]] + s.work[r][1..];
  }

  lemma DeliverUnnamed<R, S>(s: State<R, S>, r: R, c: Id)
    requires Inv(s) && CanDeliver(s, r)
    ensures Unnamed(DoDeliver(s, r).hub.node, c) <==> Unnamed(s.hub.node, c)
  {
    hide RoomInv, MemberInv, ClientInv, MappedInv, OrderInv, ListOk, SessionOk, RoomOk, DoDeliver;
    DeliverKeys(s, r);
    forall q | q in s.hub.node.rooms ensures DoDeliver(s, r).hub.node.rooms[q].address == s.hub.node.rooms[q].address {
      DeliverRoom(s, r, q);
    }
  }

  lemma DeliverKeys<R, S>(s: State<R, S>, r: R)
    requires Inv(s) && CanDeliver(s, r)
    ensures HubWired(s.hub) && DoDeliver(s, r).hub.node.rooms.Keys == s.hub.node.rooms.Keys
  {
  }

  lemma DeliverOrder<R, S>(s: State<R, S>, r: R, t: S)
    requires Inv(s) && CanDeliver(s, r) && t in s.hub.node.sess
    ensures OrderInv(DoDeliver(s, r), t)
  {
    hide Emit, MappedInv, MemberInv, ClientInv, RoomInv, Tidy, Recipients, Picked, Broadcasts, Noted;
    var x := s.hub.node.sess[t];
    DeliverGot(s, r, t);
    DeliverFrame(s, r);
    DeliverUnnamed(s, r, x.conn);
    hide Unnamed;
    assert OrderInv(s, t);
    if RoomOf(s.clients[x.conn].phase).Some? {
      var q := RoomOf(s.clients[x.conn].phase).value;
      DeliverRoom(s, r, q);
      var placed, placed' := s.hub.node.rooms[q].inbox.placed, DoDeliver(s, r).hub.node.rooms[q].inbox.placed;
      PickedStays(placed, placed', s.got[t]);
      if Reached(s, r, t) {
        BroadcastsAppend(x.inbox.placed, Current(s.hub.node, r));
        PickedOne(placed', s.got[t], s.hub.node.rooms[r].inbox.taken - 1);
      }
    }
    assert x.inbox.placed + [] == x.inbox.placed && s.got[t] + [] == s.got[t];
  }

  lemma DeliverMember<R, S>(s: State<R, S>, r: R, q: R, c: Id)
    requires Inv(s) && CanDeliver(s, r) && q in s.hub.node.rooms && q in s.work && q in s.seen
    ensures q in DoDeliver(s, r).hub.node.rooms && MemberInv(DoDeliver(s, r), q, c)
  {
    hide Emit, OrderInv, MappedInv, ClientInv, Tidy, Recipients, Attending, Noted;
    DeliverRoom(s, r, q);
    assert MemberInv(s, q, c);
  }

  lemma DeliverClient<R, S>(s: State<R, S>, r: R, c: Id)
    requires Inv(s) && CanDeliver(s, r) && c in s.clients
    ensures ClientInv(DoDeliver(s, r), c)
  {
    hide Emit, MappedInv, MemberInv, RoomInv, OrderInv, Tidy, HearsRoom, Noted;
    DeliverEffect(s, r);
    assert ClientInv(s, c);
    if RoomOf(s.clients[c].phase).Some? { DeliverRoom(s, r, RoomOf(s.clients[c].phase).value); }
  }

  lemma DeliverRoomInv<R, S>(s: State<R, S>, r: R, q: R)
    requires Inv(s) && CanDeliver(s, r) && q in s.hub.node.rooms
    ensures q in DoDeliver(s, r).hub.node.rooms && RoomInv(DoDeliver(s, r), q)
  {
    hide Emit, MappedInv, MemberInv, ClientInv, OrderInv, Tidy, Noted;
    DeliverRoom(s, r, q);
    assert RoomInv(s, q);
  }

  lemma DeliverKeeps<R, S>(s: State<R, S>, r: R)
    requires Inv(s) && CanDeliver(s, r)
    ensures Inv(DoDeliver(s, r))
  {
    hide RoomInv, MemberInv, ClientInv, OrderInv, ListOk, SessionOk, RoomOk, Hears, HearsRoom, Emit, Noted;
    var s' := DoDeliver(s, r);
    DeliverEffect(s, r);
    forall q | q in s'.hub.node.rooms ensures RoomInv(s', q) { DeliverRoomInv(s, r, q); }
    forall id | id in s'.hub.mapped ensures MappedInv(s', id) {
      assert MappedInv(s, id);
      DeliverRoom(s, r, s.hub.mapped[id]);
    }
    forall q, c | q in s'.hub.node.rooms && q in s'.work && q in s'.seen ensures MemberInv(s', q, c) {
      DeliverMember(s, r, q, c);
    }
    forall c | c in s'.clients ensures ClientInv(s', c) { DeliverClient(s, r, c); }
    forall t | t in s'.hub.node.sess ensures OrderInv(s', t) { DeliverOrder(s, r, t); }
  }

  lemma TakeTidy<R, S>(s: State<R, S>, t: S)
    requires Tidy(s.hub.node) && HubWired(s.hub) && t in s.hub.node.sess
    requires s.hub.node.sess[t].inbox.taken < |s.hub.node.sess[t].inbox.placed|
    ensures Tidy(DoTake(s, t).hub.node)
  {
    var n, n' := s.hub.node, DoTake(s, t).hub.node;
    forall a | a in n'.table ensures ListOk(n', a) { assert ListOk(n, a); }
    forall u | u in n'.sess ensures SessionOk(n', u) { assert SessionOk(n, u); }
    forall q | q in n'.rooms ensures RoomOk(n', q) { assert RoomOk(n, q); }
  }

  lemma TakeKeeps<R, S>(s: State<R, S>, t: S)
    requires Inv(s) && t in s.hub.node.sess
    requires s.hub.node.sess[t].inbox.taken < |s.hub.node.sess[t].inbox.placed|
    ensures Inv(DoTake(s, t))
  {
    hide RoomInv, MemberInv, MappedInv, ListOk, SessionOk, RoomOk;
    var s' := DoTake(s, t);
    TakeTidy(s, t);
    forall d | d in s.clients ensures ClientInv(s', d) { assert ClientInv(s, d); }
    forall u | u in s'.hub.node.sess ensures OrderInv(s', u) { assert OrderInv(s, u); }
    SessionsOnlyKeeps(s, s');
  }

  lemma DownTidy<R, S>(n: Node<R, S>, down: set<Id>)
    requires Tidy(n)
    ensures Tidy(n.(down := down))
  {
    var n' := n.(down := down);
    forall a | a in n'.table ensures ListOk(n', a) { assert ListOk(n, a); }
    forall u | u in n'.sess ensures SessionOk(n', u) { assert SessionOk(n, u); }
    forall q | q in n'.rooms ensures RoomOk(n', q) { assert RoomOk(n, q); }
  }

  lemma ClockKeeps<R, S>(s: State<R, S>, now: int, swept: int, down: set<Id>)
    requires Inv(s)
    ensures Inv(WithNode(s, s.hub.node.(down := down)).(now := now, swept := swept))
  {
    hide MemberInv, MappedInv, RoomInv, ListOk, SessionOk, RoomOk, Broadcasts, Picked;
    var s' := WithNode(s, s.hub.node.(down := down)).(now := now, swept := swept);
    DownTidy(s.hub.node, down);
    forall d | d in s.clients ensures ClientInv(s', d) { assert ClientInv(s, d); }
    forall u | u in s'.hub.node.sess ensures OrderInv(s', u) { assert OrderInv(s, u); }
    SessionsOnlyKeeps(s, s');
  }

  lemma SweepStepKeeps<R, S>(s: State<R, S>, order: seq<R>)
    requires Inv(s) && Enumerates(s.hub, order)
    ensures Inv(DoSweep(s, order))
  {
    hide RoomInv, MemberInv, ClientInv, MappedInv, OrderInv, ListOk, SessionOk, RoomOk, Sweep;
    OrderOpen(s, order);
    SweepKeeps(s, order);
    var s1 := s.(hub := Sweep(s.hub, order, s.now));
    ClockKeeps(s1, s.now, s.now, s1.hub.node.down);
  }

  // ---- all steps, all runs ----

  lemma OrderOpen<R, S>(s: State<R, S>, order: seq<R>)
    requires Inv(s) && Enumerates(s.hub, order)
    ensures AllOpen(s, order)
  {
    forall r | r in order ensures r in s.hub.node.rooms && OpenAt(s, r) {
      var id :| id in s.hub.mapped && s.hub.mapped[id] == r;
      assert MappedInv(s, id);
    }
  }

  lemma StepKeeps<R, S>(s: State<R, S>, e: Step<R, S>)
    requires Inv(s)
    ensures Inv(Apply(s, e))
  {
    hide RoomInv, MemberInv, ClientInv, MappedInv, OrderInv, Tidy;
    if Enabled(s, e) {
      match e
      case Tick(d) => ClockKeeps(s, s.now + d, s.swept, s.hub.node.down);
      case Network(down) => ClockKeeps(s, s.now, s.swept, down);
      case Create(r, id, useSecret, secret, full) => CreateKeeps(s, r, id, useSecret, secret, full);
      case Remove(id) => RemoveKeeps(s, id);
      case Sweeping(order) => SweepStepKeeps(s, order);
      case Connect(c, target) => ConnectKeeps(s, c, target);
      case Register(c, t) => RegisterKeeps(s, c, t);
      case Joining(c, secret) => JoinKeeps(s, c, secret);
      case Departing(c) => LeaveKeeps(s, c);
      case LeaveLost(c) => LeaveLostKeeps(s, c);
      case EndSession(c) => EndSessionKeeps(s, c);
      case SendAll(c, data, includeSelf) => SendAllKeeps(s, c, data, includeSelf);
      case SendOne(c, data, to) => EmitKeeps(s, to, Unicast(data, c, Some(to)));
      case Begin(r) => BeginKeeps(s, r);
      case Deliver(r) => DeliverKeeps(s, r);
      case Take(t) => TakeKeeps(s, t);
    }
  }

  lemma {:induction false} RunInv<R, S>(steps: seq<Step<R, S>>)
    ensures Inv(Run(steps))
    decreases |steps|
  {
    if steps == [] {
    } else {
      RunInv(steps[..|steps| - 1]);
      StepKeeps(Run(steps[..|steps| - 1]), steps[|steps| - 1]);
    }
  }
}
