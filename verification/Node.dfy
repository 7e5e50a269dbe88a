/** Rooms, sessions and the listener table as values, and what each operation does to them.

    `R` and `S` name room and session objects: the classes in RoomObjects use references, the
    transition system in Cluster uses any type. */
module Nodes {
  import opened Messages

  datatype Listener<R, S> = RoomL(room: R) | SessL(sess: S)

  /** A localRoom. `closes` counts how often its done channel was closed. */
  datatype Room = Room(
    address: Id, useSecret: bool, secret: string, status: Status, closes: nat, conns: seq<Id>,
    createdAt: int, activeAt: int, why: CloseReason, inbox: Inbox)

  /** A remoteRoom: one WebSocket session's end of room `target`. */
  datatype Session = Session(conn: Id, target: Id, status: Status, closes: nat, inbox: Inbox)

  /** `down` holds the addresses whose machine cannot be reached at the moment. */
  datatype Node<R, S> = Node(
    table: map<Id, seq<Listener<R, S>>>, rooms: map<R, Room>, sess: map<S, Session>, down: set<Id>)

  ghost predicate Known<R, S>(n: Node<R, S>, l: Listener<R, S>) {
    (l.RoomL? ==> l.room in n.rooms) && (l.SessL? ==> l.sess in n.sess)
  }

  ghost predicate Wired<R, S>(n: Node<R, S>) {
    forall a :: a in n.table ==> forall l :: l in n.table[a] ==> Known(n, l)
  }

  ghost predicate AllKnown<R, S>(n: Node<R, S>, ls: seq<Listener<R, S>>) {
    forall l :: l in ls ==> Known(n, l)
  }

  ghost predicate SameObjects<R, S>(n: Node<R, S>, n': Node<R, S>) {
    n'.rooms.Keys == n.rooms.Keys && n'.sess.Keys == n.sess.Keys && n'.down == n.down
  }

  ghost function ListenersAt<R, S>(n: Node<R, S>, a: Id): seq<Listener<R, S>> {
    if a in n.table then n.table[a] else []
  }

  ghost predicate IsClose<R, S>(n: Node<R, S>, l: Listener<R, S>)
    requires Known(n, l)
  {
    match l
    case RoomL(r) => n.rooms[r].status == Closed
    case SessL(s) => n.sess[s].status == Closed
  }

  ghost function AddListener<R, S>(n: Node<R, S>, a: Id, l: Listener<R, S>): Node<R, S> {
    n.(table := n.table[a := ListenersAt(n, a) + [l]])
  }

  ghost function RemoveListener<R, S>(n: Node<R, S>, a: Id, l: Listener<R, S>): Node<R, S> {
    if a in n.table then n.(table := n.table[a := Without(n.table[a], l)]) else n
  }

  /** basicRoom.close for a session, then leaving the listener table. */
  ghost function CloseSession<R, S>(n: Node<R, S>, s: S): Node<R, S>
    requires s in n.sess
  {
    var x := n.sess[s];
    var x' := if x.status == Closed then x else x.(status := Closed, closes := x.closes + 1);
    RemoveListener(n.(sess := n.sess[s := x']), x.conn, SessL(s))
  }

  /** remoteRoom.Start: a new session object listens under its connection. */
  ghost function StartSession<R, S>(n: Node<R, S>, t: S, c: Id, target: Id): (n': Node<R, S>)
    requires Wired(n)
    ensures Wired(n')
  {
    AddListener(n.(sess := n.sess[t := Session(c, target, Init, 0, EMPTY_INBOX)]), c, SessL(t))
  }

  /** One listener takes a message: queue it, and a session that queued a close message closes itself. */
  ghost function Listen<R, S>(n: Node<R, S>, l: Listener<R, S>, m: Message): Node<R, S>
    requires Known(n, l)
  {
    match l
    case RoomL(r) => n.(rooms := n.rooms[r := n.rooms[r].(inbox := n.rooms[r].inbox.Put(m))])
    case SessL(s) =>
      var x := n.sess[s];
      if x.inbox.Full() then n
      else
        var n' := n.(sess := n.sess[s := x.(inbox := x.inbox.Put(m))]);
        if m.Close? then CloseSession(n', s) else n'
  }

  /** One turn of EmitLocal's loop: an open listener takes the message, a closed one is pruned. */
  ghost function Turn<R, S>(n: Node<R, S>, a: Id, l: Listener<R, S>, m: Message): (n': Node<R, S>)
    requires Wired(n) && Known(n, l)
    ensures Wired(n') && SameObjects(n, n')
  {
    if IsClose(n, l) then RemoveListener(n, a, l) else Listen(n, l, m)
  }

  /** EmitLocal's loop over the listeners it read from the table before it started. */
  ghost function EmitTo<R, S>(n: Node<R, S>, a: Id, ls: seq<Listener<R, S>>, m: Message): (n': Node<R, S>)
    requires Wired(n) && AllKnown(n, ls)
    ensures Wired(n') && SameObjects(n, n')
    decreases |ls|
  {
    if ls == [] then n
    else
      var n1 := Turn(n, a, ls[0], m);
      assert AllKnown(n1, ls[1..]) by {
        assert forall l :: l in ls[1..] ==> l in ls && Known(n, l);
      }
      EmitTo(n1, a, ls[1..], m)
  }

  ghost function Emit<R, S>(n: Node<R, S>, a: Id, m: Message): (n': Node<R, S>)
    requires Wired(n)
    ensures Wired(n') && SameObjects(n, n')
  {
    if a in n.down then n else EmitTo(n, a, ListenersAt(n, a), m)
  }

  ghost function EmitEach<R, S>(n: Node<R, S>, cs: seq<Id>, m: Message): (n': Node<R, S>)
    requires Wired(n)
    ensures Wired(n') && SameObjects(n, n')
    decreases |cs|
  {
    if cs == [] then n else EmitEach(Emit(n, cs[0], m), cs[1..], m)
  }

  // ---- one room ----

  ghost function SetRoom<R, S>(n: Node<R, S>, r: R, x: Room): (n': Node<R, S>)
    requires Wired(n) && r in n.rooms
    ensures Wired(n') && SameObjects(n, n')
  {
    n.(rooms := n.rooms[r := x])
  }

  /** localRoom.SendMessage: every supported type refreshes the activity clock. */
  ghost function SendMessage<R, S>(n: Node<R, S>, r: R, m: Message, now: int): (n': Node<R, S>)
    requires Wired(n) && r in n.rooms
    ensures Wired(n') && SameObjects(n, n')
  {
    if m.Unknown? then n
    else
      var x := n.rooms[r];
      EmitEach(SetRoom(n, r, x.(activeAt := now)), Recipients(m, x.conns), m)
  }

  ghost predicate JoinAllowed(x: Room, address: Id, secret: string) {
    x.address == address && (x.useSecret ==> x.secret == secret)
  }

  ghost function RoomJoin<R, S>(n: Node<R, S>, r: R, c: Id, address: Id, secret: string, now: int): (n': Node<R, S>)
    requires Wired(n) && r in n.rooms
    ensures Wired(n') && SameObjects(n, n')
  {
    var x := n.rooms[r];
    if !JoinAllowed(x, address, secret) then n
    else
      var n1 := SendMessage(SetRoom(n, r, x.(conns := x.conns + [c])), r, Join(c), now);
      SetRoom(n1, r, n1.rooms[r].(status := Running))
  }

  ghost function RoomLeave<R, S>(n: Node<R, S>, r: R, c: Id, address: Id, now: int): (n': Node<R, S>)
    requires Wired(n) && r in n.rooms
    ensures Wired(n') && SameObjects(n, n')
  {
    var x := n.rooms[r];
    if x.address != address then n
    else SendMessage(SetRoom(n, r, x.(conns := Without(x.conns, c))), r, Leave(c), now)
  }

  /** basicRoom.close on an open room: the status is set and the done channel closed. */
  function Marked(x: Room): Room {
    x.(status := Closed, closes := x.closes + 1)
  }

  /** The first half of localRoom.Close: marked closed, done channel closed, out of the listener table. */
  ghost function Retired<R, S>(n: Node<R, S>, r: R): (n': Node<R, S>)
    requires Wired(n) && r in n.rooms
    ensures Wired(n') && SameObjects(n, n')
  {
    var x := n.rooms[r];
    RemoveListener(SetRoom(n, r, Marked(x)), x.address, RoomL(r))
  }

  /** localRoom.Close: a closed room is left alone; otherwise the members hear it last. */
  ghost function RoomClose<R, S>(n: Node<R, S>, r: R, now: int): (n': Node<R, S>)
    requires Wired(n) && r in n.rooms
    ensures Wired(n') && SameObjects(n, n')
  {
    var x := n.rooms[r];
    if x.status == Closed then n
    else SendMessage(Retired(n, r), r, Close(x.address, x.why), now)
  }

  /** Why localRoom.ShouldRemove would close an open room now, if it would. */
  function Verdict(x: Room, now: int): Option<CloseReason> {
    if x.status == Init && x.conns == [] && now - x.createdAt > MINUTE then Some(NoUseInitRoom)
    else if x.status == Running && x.conns == [] && now - x.activeAt > MINUTE then Some(NoUserRoom)
    else if x.status == Running && now - x.activeAt > 5 * MINUTE then Some(NoUseRoom)
    else if now - x.createdAt > HOUR then Some(MaxTimeRoom)
    else None
  }

  predicate ShouldRemove(x: Room, now: int) {
    x.status == Closed || Verdict(x, now).Some?
  }

  /** The room after ShouldRemove has recorded its reason. */
  function Judged(x: Room, now: int): Room {
    if x.status != Closed && Verdict(x, now).Some? then x.(why := Verdict(x, now).value) else x
  }

  // ---- the room manager ----

  /** One manager's view: the objects, and roomsMap. */
  datatype Hub<R, S> = Hub(node: Node<R, S>, mapped: map<Id, R>)

  ghost predicate HubWired<R, S>(h: Hub<R, S>) {
    Wired(h.node) && forall id :: id in h.mapped ==> h.mapped[id] in h.node.rooms
  }

  function NewRoom(id: Id, useSecret: bool, secret: string, now: int): Room {
    Room(id, useSecret, secret, Init, 0, [], now, now, NoReason, EMPTY_INBOX)
  }

  /** A new room object that starts: it listens under its address and announces itself. */
  ghost function Enlisted<R, S>(n: Node<R, S>, r: R, x: Room, now: int): (n': Node<R, S>)
    requires Wired(n)
    ensures Wired(n') && r in n'.rooms
  {
    SendMessage(AddListener(n.(rooms := n.rooms[r := x]), x.address, RoomL(r)), r, Start(x.address), now)
  }

  /** CreateRoom: a full manager and an empty required secret refuse, a known id is returned as it is. */
  ghost predicate Creates<R, S>(h: Hub<R, S>, full: bool, id: Id, useSecret: bool, secret: string) {
    !full && id !in h.mapped && !(useSecret && secret == "")
  }

  ghost function CreateRoom<R, S>(h: Hub<R, S>, full: bool, r: R, id: Id, useSecret: bool, secret: string, now: int): (h': Hub<R, S>)
    requires HubWired(h) && r !in h.node.rooms
    ensures HubWired(h')
  {
    if !Creates(h, full, id, useSecret, secret) then h
    else Hub(Enlisted(h.node, r, NewRoom(id, useSecret, secret, now), now), h.mapped[id := r])
  }

  ghost function RemoveRoom<R, S>(h: Hub<R, S>, id: Id, now: int): (h': Hub<R, S>)
    requires HubWired(h)
    ensures HubWired(h') && SameObjects(h.node, h'.node)
  {
    if id !in h.mapped then h
    else
      var r := h.mapped[id];
      Hub(RoomClose(h.node, r, now), h.mapped - {h.node.rooms[r].address})
  }

  ghost predicate Joins<R, S>(h: Hub<R, S>, id: Id, secret: string)
    requires HubWired(h)
  {
    && id in h.mapped
    && h.node.rooms[h.mapped[id]].status != Closed
    && JoinAllowed(h.node.rooms[h.mapped[id]], id, secret)
  }

  ghost function JoinRoom<R, S>(h: Hub<R, S>, id: Id, c: Id, secret: string, now: int): (h': Hub<R, S>)
    requires HubWired(h)
    ensures HubWired(h') && SameObjects(h.node, h'.node)
  {
    if id !in h.mapped || h.node.rooms[h.mapped[id]].status == Closed then h
    else h.(node := RoomJoin(h.node, h.mapped[id], c, id, secret, now))
  }

  /** What the sweep and LeaveRoom both do with one room: ask it, and if it says so unmap and close it. */
  ghost function Reap<R, S>(h: Hub<R, S>, r: R, now: int): (h': Hub<R, S>)
    requires HubWired(h) && r in h.node.rooms
    ensures HubWired(h') && SameObjects(h.node, h'.node)
  {
    var x := h.node.rooms[r];
    var n1 := SetRoom(h.node, r, Judged(x, now));
    if ShouldRemove(x, now) then Hub(RoomClose(n1, r, now), h.mapped - {x.address})
    else Hub(n1, h.mapped)
  }

  ghost function LeaveRoom<R, S>(h: Hub<R, S>, id: Id, c: Id, now: int): (h': Hub<R, S>)
    requires HubWired(h)
    ensures HubWired(h') && SameObjects(h.node, h'.node)
  {
    if id !in h.mapped || h.node.rooms[h.mapped[id]].status == Closed then h
    else
      var r := h.mapped[id];
      Reap(h.(node := RoomLeave(h.node, r, c, id, now)), r, now)
  }

  ghost function Sweep<R, S>(h: Hub<R, S>, order: seq<R>, now: int): (h': Hub<R, S>)
    requires HubWired(h) && forall r :: r in order ==> r in h.node.rooms
    ensures HubWired(h') && SameObjects(h.node, h'.node)
    decreases |order|
  {
    if order == [] then h else Sweep(Reap(h, order[0], now), order[1..], now)
  }
}
