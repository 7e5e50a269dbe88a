/** Room operations that only tell members something keep the cluster invariant: whatever the
    operation did to the room itself, the members heard one message that is no broadcast. Joins,
    leaves and closings are all of this form. */
module Notices {
  import opened Messages
  import opened Nodes
  import opened Consistency
  import opened RoomEffects
  import opened Cluster
  import opened Invariant

  lemma BroadcastsAppend(ms: seq<Message>, m: Message)
    ensures Broadcasts(ms + [m]) == if m.Broadcast? then Broadcasts(ms) + [m] else Broadcasts(ms)
  {
    assert (ms + [m])[..|ms|] == ms;
  }

  lemma PickedPrefix(ms: seq<Message>, more: seq<Message>, ks: seq<nat>)
    requires Below(ks, |ms|)
    ensures Below(ks, |ms + more|) && Picked(ms + more, ks) == Picked(ms, ks)
  {
  }

  /** `x'` is `x`, except that more may have been placed in its inbox. */
  predicate HeardOnly(x: Room, x': Room) {
    x' == x.(inbox := x'.inbox) && x'.inbox.taken == x.inbox.taken && x.inbox.placed <= x'.inbox.placed
  }

  /** `rooms'` is `rooms` with `r` replaced by `x'`, up to messages placed in inboxes meanwhile. */
  ghost predicate RoomsBut<R>(rooms: map<R, Room>, rooms': map<R, Room>, r: R, x': Room) {
    && rooms'.Keys == rooms.Keys
    && forall q {:trigger rooms'[q]} :: q in rooms ==> HeardOnly(if q == r then x' else rooms[q], rooms'[q])
  }

  lemma HearsRoomOnly(x: Room, cs: seq<Id>, m: Message, down: set<Id>)
    ensures HeardOnly(x, HearsRoom(x, cs, m, down))
    ensures x.address !in cs ==> HearsRoom(x, cs, m, down) == x
    ensures FromClients(x.inbox.placed) && (m.Broadcast? || m.Unicast?) ==>
              FromClients(HearsRoom(x, cs, m, down).inbox.placed)
  {
  }

  lemma PickedStays(placed: seq<Message>, placed': seq<Message>, ks: seq<nat>)
    requires placed <= placed' && Below(ks, |placed|)
    ensures Below(ks, |placed'|) && Picked(placed', ks) == Picked(placed, ks)
  {
    PickedPrefix(placed, placed'[|placed|..], ks);
    assert placed' == placed + placed'[|placed|..];
  }

  /** Room `r` becomes `x'` and says `m`, which is no broadcast, to the connections `cs`, all of which joined it. */
  ghost predicate Notice<R, S>(s: State<R, S>, h': Hub<R, S>, r: R, x': Room, cs: seq<Id>, m: Message) {
    && HubWired(s.hub) && HubWired(h') && Tidy(h'.node)
    && Sends(s.hub.node, h'.node, r, x', cs, m)
    && !m.Broadcast?
    && var x := s.hub.node.rooms[r];
    && x'.address == x.address && x'.inbox == x.inbox
    && (x.status == Closed ==> x'.status == Closed)
    && (x'.status == Init ==> x'.conns == [])
    && h'.mapped == (if x'.status == Closed && x.status != Closed then s.hub.mapped - {x.address} else s.hub.mapped)
    && (forall c :: c in cs ==> Joined(s, c, r))
    && (m.Close? ==> x'.status == Closed)
    && (forall c :: c in x'.conns ==> c in x.conns || (Joined(s, c, r) && Attending(s.clients[c].phase)))
  }

  lemma HeardKeepsOrder(x: Session, cs: seq<Id>, m: Message, down: set<Id>)
    requires !m.Broadcast?
    ensures var x' := Hears(x, cs, m, down);
            && x'.conn == x.conn && x'.target == x.target
            && Broadcasts(x'.inbox.placed) == Broadcasts(x.inbox.placed)
            && (x.status == Closed ==> x'.status == Closed)
            && (x'.status != x.status ==> x.conn in cs && m.Close? && x.status != Closed)
  {
    BroadcastsAppend(x.inbox.placed, m);
  }

  /** Everything of room `q` but its inbox, and that only grows; a room no connection is named after hears nothing. */
  lemma NoticeHeard<R, S>(s: State<R, S>, h': Hub<R, S>, r: R, x': Room, cs: seq<Id>, m: Message, q: R)
    requires Notice(s, h', r, x', cs, m) && q in s.hub.node.rooms
    ensures q in h'.node.rooms
    ensures var y := if q == r then x' else s.hub.node.rooms[q];
            && HeardOnly(y, h'.node.rooms[q])
            && (y.address !in s.clients ==> h'.node.rooms[q] == y)
  {
    HearsRoomOnly(if q == r then x' else s.hub.node.rooms[q], cs, m, s.hub.node.down);
  }

  lemma NoticeRoomsBut<R, S>(s: State<R, S>, h': Hub<R, S>, r: R, x': Room, cs: seq<Id>, m: Message)
    requires Notice(s, h', r, x', cs, m)
    ensures RoomsBut(s.hub.node.rooms, h'.node.rooms, r, x')
  {
    forall q | q in s.hub.node.rooms ensures HeardOnly(if q == r then x' else s.hub.node.rooms[q], h'.node.rooms[q]) {
      NoticeHeard(s, h', r, x', cs, m, q);
    }
  }

  lemma NoticeRoom<R, S>(s: State<R, S>, h': Hub<R, S>, r: R, x': Room, cs: seq<Id>, m: Message, q: R)
    requires Inv(s) && Notice(s, h', r, x', cs, m) && q in s.hub.node.rooms
    ensures q in h'.node.rooms && RoomInv(s.(hub := h'), q)
  {
    hide MemberInv, ClientInv, MappedInv, OrderInv, Tidy, Hears, HearsRoom;
    assert RoomInv(s, q) && RoomInv(s, r);
    NoticeHeard(s, h', r, x', cs, m, q);
  }

  lemma NoticeMapped<R, S>(s: State<R, S>, h': Hub<R, S>, r: R, x': Room, cs: seq<Id>, m: Message, id: Id)
    requires Inv(s) && Notice(s, h', r, x', cs, m) && id in h'.mapped
    ensures MappedInv(s.(hub := h'), id)
  {
    hide MemberInv, ClientInv, OrderInv, Tidy, Hears, HearsRoom;
    assert MappedInv(s, id) && RoomInv(s, r);
    NoticeHeard(s, h', r, x', cs, m, s.hub.mapped[id]);
  }

  lemma NoticeMember<R, S>(s: State<R, S>, h': Hub<R, S>, r: R, x': Room, cs: seq<Id>, m: Message, q: R, c: Id)
    requires Inv(s) && Notice(s, h', r, x', cs, m) && q in s.hub.node.rooms && q in s.work && q in s.seen
    ensures q in h'.node.rooms && MemberInv(s.(hub := h'), q, c)
  {
    hide ClientInv, MappedInv, OrderInv, Tidy, Hears, HearsRoom, Recipients;
    assert RoomInv(s, q) && MemberInv(s, q, c);
    NoticeHeard(s, h', r, x', cs, m, q);
  }

  lemma NoticeUnnamed<R, S>(s: State<R, S>, h': Hub<R, S>, r: R, x': Room, cs: seq<Id>, m: Message, c: Id)
    requires Notice(s, h', r, x', cs, m)
    ensures Unnamed(h'.node, c) <==> Unnamed(s.hub.node, c)
  {
    hide Hears, HearsRoom;
    NoticeRoomsBut(s, h', r, x', cs, m);
    forall q | q in s.hub.node.rooms ensures h'.node.rooms[q].address == s.hub.node.rooms[q].address {
      assert HeardOnly(if q == r then x' else s.hub.node.rooms[q], h'.node.rooms[q]);
    }
  }

  lemma NoticeOrder<R, S>(s: State<R, S>, h': Hub<R, S>, r: R, x': Room, cs: seq<Id>, m: Message, t: S)
    requires Inv(s) && Notice(s, h', r, x', cs, m) && t in s.hub.node.sess
    ensures t in h'.node.sess && OrderInv(s.(hub := h'), t)
  {
    hide MemberInv, ClientInv, MappedInv, RoomInv, Tidy, Hears, HearsRoom, Unnamed, Broadcasts, Picked;
    assert OrderInv(s, t);
    var x := s.hub.node.sess[t];
    HeardKeepsOrder(x, cs, m, s.hub.node.down);
    NoticeUnnamed(s, h', r, x', cs, m, x.conn);
    if RoomOf(s.clients[x.conn].phase).Some? {
      var q := RoomOf(s.clients[x.conn].phase).value;
      NoticeHeard(s, h', r, x', cs, m, q);
      PickedStays(s.hub.node.rooms[q].inbox.placed, h'.node.rooms[q].inbox.placed, s.got[t]);
    }
  }

  lemma NoticeClient<R, S>(s: State<R, S>, h': Hub<R, S>, r: R, x': Room, cs: seq<Id>, m: Message, c: Id)
    requires Inv(s) && Notice(s, h', r, x', cs, m) && c in s.clients
    ensures ClientInv(s.(hub := h'), c)
  {
    hide MemberInv, OrderInv, MappedInv, RoomInv, Tidy, Hears, HearsRoom, Broadcasts;
    assert ClientInv(s, c);
    var p := s.clients[c].phase;
    if !p.Connecting? { HeardKeepsOrder(s.hub.node.sess[p.sess], cs, m, s.hub.node.down); }
    if RoomOf(p).Some? { NoticeHeard(s, h', r, x', cs, m, RoomOf(p).value); }
  }

  lemma NoticeKeeps<R, S>(s: State<R, S>, h': Hub<R, S>, r: R, x': Room, cs: seq<Id>, m: Message)
    requires Inv(s) && Notice(s, h', r, x', cs, m)
    ensures Inv(s.(hub := h')) && RoomsBut(s.hub.node.rooms, h'.node.rooms, r, x')
  {
    hide MemberInv, OrderInv, MappedInv, RoomInv, ClientInv, Tidy, Hears, HearsRoom, Joined, Attending;
    var s' := s.(hub := h');
    forall q | q in h'.node.rooms ensures RoomInv(s', q) { NoticeRoom(s, h', r, x', cs, m, q); }
    forall id | id in h'.mapped ensures MappedInv(s', id) { NoticeMapped(s, h', r, x', cs, m, id); }
    forall q, c | q in h'.node.rooms && q in s.work && q in s.seen ensures MemberInv(s', q, c) {
      NoticeMember(s, h', r, x', cs, m, q, c);
    }
    forall c | c in s.clients ensures ClientInv(s', c) { NoticeClient(s, h', r, x', cs, m, c); }
    forall t | t in h'.node.sess ensures OrderInv(s', t) { NoticeOrder(s, h', r, x', cs, m, t); }
    NoticeRoomsBut(s, h', r, x', cs, m);
  }
}
