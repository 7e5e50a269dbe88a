/** The room, session, emitter and manager classes of one node, each method proved to do to the
    objects exactly what the functions of Nodes say. Deadlines are modelled as a drop on a full inbox. */
module RoomObjects {
  import opened Messages
  import opened Nodes

  /** The filtering loop of RemoveListener and removeConnectionWithLock. */
  method Dropped<T(==)>(list: seq<T>, x: T) returns (newList: seq<T>)
    ensures newList == Without(list, x)
  {
    newList := [];
    for i := 0 to |list|
      invariant newList + Without(list[i..], x) == Without(list, x)
    {
      assert list[i..] == [list[i]] + list[i + 1..];
      if list[i] != x {
        newList := newList + [list[i]];
      }
    }
  }

  type Target = Listener<LocalRoom, RemoteRoom>

  class LocalEventEmitter {
    var listeners: map<Id, seq<Target>>
    /** The whole node as a value: `Valid` ties it to the fields of every object on it. */
    ghost var node: Node<LocalRoom, RemoteRoom>

    ghost predicate Valid()
      reads this, node.rooms.Keys, node.sess.Keys
    {
      && node.table == listeners && node.down == {} && Wired(node)
      && (forall r {:trigger node.rooms[r]} :: r in node.rooms ==> r.Valid() && r.event == this && r.Value() == node.rooms[r])
      && (forall s {:trigger node.sess[s]} :: s in node.sess ==> s.Valid() && s.eventEmitter == this && s.Value() == node.sess[s])
    }

    /** Valid, but for room `q`, whose fields have just been changed. */
    ghost predicate ValidBut(q: LocalRoom)
      reads this, node.rooms.Keys, node.sess.Keys
    {
      && node.table == listeners && node.down == {} && Wired(node)
      && (forall r {:trigger node.rooms[r]} :: r in node.rooms ==>
            r.event == this && (r != q ==> r.Valid() && r.Value() == node.rooms[r]))
      && (forall s {:trigger node.sess[s]} :: s in node.sess ==> s.Valid() && s.eventEmitter == this && s.Value() == node.sess[s])
    }

    ghost method Refresh(q: LocalRoom)
      requires ValidBut(q) && q in node.rooms && q.Valid()
      modifies this`node
      ensures Valid() && node == SetRoom(old(node), q, q.Value())
    {
      node := SetRoom(node, q, q.Value());
    }

    constructor ()
      ensures Valid() && node == Node(map[], map[], map[], {})
    {
      listeners := map[];
      node := Node(map[], map[], map[], {});
    }

    /** The duplicate test of the original compares addresses of its own local variables, so it never fires. */
    method AddListener(address: Id, listener: Target)
      requires Valid() && Known(node, listener)
      modifies this`listeners, this`node
      ensures Valid() && node == Nodes.AddListener(old(node), address, listener)
    {
      var list := if address in listeners then listeners[address] else [];
      listeners := listeners[address := list + [listener]];
      node := Nodes.AddListener(node, address, listener);
    }

    method RemoveListener(address: Id, listener: Target)
      requires Valid()
      modifies this`listeners, this`node
      ensures Valid() && node == Nodes.RemoveListener(old(node), address, listener)
      ensures node.rooms == old(node.rooms) && node.sess == old(node.sess)
    {
      if address in listeners {
        var newList := Dropped(listeners[address], listener);
        listeners := listeners[address := newList];
        node := Nodes.RemoveListener(node, address, listener);
      }
    }

    /** One turn of EmitLocal: `listener.Listen` if it is open, else it is removed. */
    method HandTo(address: Id, listener: Target, pkg: Message)
      requires Valid() && Known(node, listener)
      modifies this`listeners, this`node, node.rooms.Keys, node.sess.Keys
      ensures Valid() && node == Turn(old(node), address, listener, pkg)
    {
      match listener
      case RoomL(r) =>
        if r.status != Closed { r.Listen(pkg); } else { RemoveListener(address, listener); }
      case SessL(s) =>
        if s.status != Closed { s.Listen(pkg); } else { RemoveListener(address, listener); }
    }

    /** The loop runs over the list as it was when it was read; a listener may remove itself meanwhile. */
    method EmitLocal(address: Id, pkg: Message) returns (ok: bool)
      requires Valid()
      modifies this`listeners, this`node, node.rooms.Keys, node.sess.Keys
      ensures Valid() && node == Emit(old(node), address, pkg)
      ensures ok <==> old(ListenersAt(node, address)) != []
    {
      var list := if address in listeners then listeners[address] else [];
      if |list| == 0 {
        return false;
      }
      ghost var goal := EmitTo(node, address, list, pkg);
      var rest := list;
      while rest != []
        invariant Valid() && AllKnown(node, rest)
        invariant EmitTo(node, address, rest, pkg) == goal
        decreases |rest|
      {
        ghost var n := node;
        assert rest[0] in rest;
        HandTo(address, rest[0], pkg);
        RestKnown(n, node, rest);
        rest := rest[1..];
      }
      ok := true;
    }
  }

  lemma RestKnown(n: Node<LocalRoom, RemoteRoom>, n': Node<LocalRoom, RemoteRoom>, ls: seq<Target>)
    requires ls != [] && AllKnown(n, ls) && SameObjects(n, n')
    ensures AllKnown(n', ls[1..])
  {
    assert forall l :: l in ls[1..] ==> l in ls && Known(n, l);
  }

  /** One WebSocket session's end of a room. */
  class RemoteRoom {
    const connection: Id
    const target: Id
    const eventEmitter: LocalEventEmitter
    var status: Status
    var closes: nat
    var messages: seq<Message>
    ghost var placed: seq<Message>
    ghost var taken: nat

    ghost predicate Valid()
      reads this
    {
      taken <= |placed| && messages == placed[taken..]
    }

    ghost function Value(): Session
      reads this
    {
      Session(connection, target, status, closes, Inbox(placed, taken))
    }

    constructor (connection: Id, target: Id, eventEmitter: LocalEventEmitter)
      ensures Valid() && Value() == Session(connection, target, Init, 0, EMPTY_INBOX)
      ensures this.eventEmitter == eventEmitter
    {
      this.connection, this.target, this.eventEmitter := connection, target, eventEmitter;
      status, closes, messages := Init, 0, [];
      placed, taken := [], 0;
    }

    method Start()
      requires eventEmitter.Valid() && Valid() && this !in eventEmitter.node.sess
      requires Value() == Session(connection, target, Init, 0, EMPTY_INBOX)
      modifies eventEmitter
      ensures eventEmitter.Valid()
      ensures eventEmitter.node == StartSession(old(eventEmitter.node), this, connection, target)
    {
      eventEmitter.node := eventEmitter.node.(sess := eventEmitter.node.sess[this := Value()]);
      eventEmitter.AddListener(connection, SessL(this));
    }

    /** basicRoom.close: the done channel is closed only when the status changes. */
    method MarkClosed()
      requires Valid()
      modifies this`status, this`closes
      ensures Valid()
      ensures status == Closed && closes == old(if status == Closed then closes else closes + 1)
    {
      if status != Closed {
        status, closes := Closed, closes + 1;
      }
    }

    method Close()
      requires eventEmitter.Valid() && this in eventEmitter.node.sess
      modifies this, eventEmitter`listeners, eventEmitter`node
      ensures eventEmitter.Valid()
      ensures eventEmitter.node == CloseSession(old(eventEmitter.node), this)
    {
      MarkClosed();
      eventEmitter.node := eventEmitter.node.(sess := eventEmitter.node.sess[this := Value()]);
      eventEmitter.RemoveListener(connection, SessL(this));
    }

    method Listen(m: Message)
      requires eventEmitter.Valid() && this in eventEmitter.node.sess
      modifies this, eventEmitter`listeners, eventEmitter`node
      ensures eventEmitter.Valid()
      ensures eventEmitter.node == Nodes.Listen(old(eventEmitter.node), SessL(this), m)
    {
      if |messages| < CAPACITY {
        Enqueue(m);
        if m.Close? {
          Close();
        }
      }
    }

    method Enqueue(m: Message)
      requires eventEmitter.Valid() && this in eventEmitter.node.sess
      modifies this`messages, this`placed, eventEmitter`node
      ensures eventEmitter.Valid()
      ensures var n, x := old(eventEmitter.node), old(Value());
              eventEmitter.node == n.(sess := n.sess[this := x.(inbox := Inbox(x.inbox.placed + [m], x.inbox.taken))])
    {
      messages := messages + [m];
      placed := placed + [m];
      eventEmitter.node := eventEmitter.node.(sess := eventEmitter.node.sess[this := Value()]);
    }
  }

  /** Whether a member at address `c` is given message `m`. */
  predicate Picks(m: Message, c: Id) {
    match m
    case Broadcast(_, from, includeSelf) => !(c == from && !includeSelf)
    case Unicast(_, _, to) => to == Some(c)
    case Ping(_) => false
    case Unknown => false
    case _ => true
  }

  lemma RecipientsNext(m: Message, list: seq<Id>)
    requires list != []
    ensures Recipients(m, list) == (if Picks(m, list[0]) then [list[0]] else []) + Recipients(m, list[1..])
  {
    assert [list[0]] + list[1..] == list;
    match m
    case Unicast(_, _, to) => if to.Some? { assert Only(list, to.value) == if list[0] == to.value then [to.value] + Only(list[1..], to.value) else Only(list[1..], to.value); }
    case _ =>
  }

  /** What the loops over a member list do at its first entry. */
  lemma EmitNext(n: Node<LocalRoom, RemoteRoom>, m: Message, list: seq<Id>)
    requires Wired(n) && list != []
    ensures Picks(m, list[0]) ==>
              EmitEach(n, Recipients(m, list), m) == EmitEach(Emit(n, list[0], m), Recipients(m, list[1..]), m)
    ensures !Picks(m, list[0]) ==> EmitEach(n, Recipients(m, list), m) == EmitEach(n, Recipients(m, list[1..]), m)
  {
    RecipientsNext(m, list);
    if Picks(m, list[0]) {
      assert Recipients(m, list)[0] == list[0] && Recipients(m, list)[1..] == Recipients(m, list[1..]);
    } else {
      assert Recipients(m, list) == Recipients(m, list[1..]);
    }
  }

  class LocalRoom {
    const address: Id
    const useSecret: bool
    const secret: string
    const createdAt: int
    const event: LocalEventEmitter
    var status: Status
    var closes: nat
    var connections: seq<Id>
    var activeAt: int
    var why: CloseReason
    var messages: seq<Message>
    ghost var placed: seq<Message>
    ghost var taken: nat

    ghost predicate Valid()
      reads this
    {
      taken <= |placed| && messages == placed[taken..]
    }

    ghost function Value(): Room
      reads this
    {
      Room(address, useSecret, secret, status, closes, connections, createdAt, activeAt, why, Inbox(placed, taken))
    }

    constructor (address: Id, useSecret: bool, secret: string, event: LocalEventEmitter, now: int)
      ensures Valid() && Value() == NewRoom(address, useSecret, secret, now) && this.event == event
    {
      this.address, this.useSecret, this.secret, this.event := address, useSecret, secret, event;
      createdAt, activeAt, connections := now, now, [];
      status, closes, why, messages := Init, 0, NoReason, [];
      placed, taken := [], 0;
    }

    method Listen(m: Message)
      requires event.Valid() && this in event.node.rooms
      modifies this`messages, this`placed, event`node
      ensures event.Valid()
      ensures event.node == Nodes.Listen(old(event.node), RoomL(this), m)
    {
      if |messages| < CAPACITY {
        messages := messages + [m];
        placed := placed + [m];
      }
      event.Refresh(this);
    }

    /** removeConnectionWithLock and SendMessage aside, every method below works on a room the node knows. */
    ghost predicate Placed()
      reads this, event, event.node.rooms.Keys, event.node.sess.Keys
    {
      event.Valid() && this in event.node.rooms
    }

    method Ping(now: int)
      requires Placed()
      modifies this`activeAt, event`node
      ensures Placed() && event.node == SetRoom(old(event.node), this, old(Value()).(activeAt := now))
    {
      activeAt := now;
      event.Refresh(this);
    }

    /** otherMessage: everyone on the list, as it was read, hears `m`. */
    method EmitToAll(list: seq<Id>, m: Message)
      requires Placed()
      modifies event`listeners, event`node, event.node.rooms.Keys, event.node.sess.Keys
      ensures Placed() && event.node == EmitEach(old(event.node), list, m)
    {
      ghost var goal := EmitEach(event.node, list, m);
      var rest := list;
      while rest != []
        invariant Placed() && EmitEach(event.node, rest, m) == goal
        decreases |rest|
      {
        var _ := event.EmitLocal(rest[0], m);
        rest := rest[1..];
      }
    }

    /** broadcastMessage: the sender is passed over unless the message includes it. */
    method EmitToOthers(list: seq<Id>, from: Id, includeSelf: bool, m: Message)
      requires Placed() && m.Broadcast? && m.from == from && m.includeSelf == includeSelf
      modifies event`listeners, event`node, event.node.rooms.Keys, event.node.sess.Keys
      ensures Placed() && event.node == EmitEach(old(event.node), Recipients(m, list), m)
    {
      ghost var goal := EmitEach(event.node, Recipients(m, list), m);
      var rest := list;
      while rest != []
        invariant Placed() && EmitEach(event.node, Recipients(m, rest), m) == goal
        decreases |rest|
      {
        EmitNext(event.node, m, rest);
        if !(rest[0] == from && !includeSelf) {
          var _ := event.EmitLocal(rest[0], m);
        }
        rest := rest[1..];
      }
    }

    /** messageMessage: only the connection it is addressed to. */
    method EmitToOne(list: seq<Id>, to: Id, m: Message)
      requires Placed() && m.Unicast? && m.to == Some(to)
      modifies event`listeners, event`node, event.node.rooms.Keys, event.node.sess.Keys
      ensures Placed() && event.node == EmitEach(old(event.node), Recipients(m, list), m)
    {
      ghost var goal := EmitEach(event.node, Recipients(m, list), m);
      var rest := list;
      while rest != []
        invariant Placed() && EmitEach(event.node, Recipients(m, rest), m) == goal
        decreases |rest|
      {
        EmitNext(event.node, m, rest);
        if rest[0] == to {
          var _ := event.EmitLocal(rest[0], m);
        }
        rest := rest[1..];
      }
    }

    method SendMessage(m: Message, now: int)
      requires Placed()
      modifies this`activeAt, event`listeners, event`node, event.node.rooms.Keys, event.node.sess.Keys
      ensures Placed() && event.node == Nodes.SendMessage(old(event.node), this, m, now)
    {
      if m.Unknown? {
        return;
      }
      Ping(now);
      if m.Broadcast? {
        EmitToOthers(connections, m.from, m.includeSelf, m);
      } else if m.Unicast? {
        if m.to.Some? { EmitToOne(connections, m.to.value, m); }
      } else if !m.Ping? {
        EmitToAll(connections, m);
      }
    }

    /** The room listens under its address and announces its start. */
    method Start(now: int)
      requires event.Valid() && Valid() && this !in event.node.rooms
      modifies this, event, event.node.rooms.Keys, event.node.sess.Keys
      ensures Placed() && event.node == Enlisted(old(event.node), this, old(Value()), now)
    {
      event.node := event.node.(rooms := event.node.rooms[this := Value()]);
      event.AddListener(address, RoomL(this));
      SendMessage(Message.Start(address), now);
    }

    method AddConnection(c: Id)
      requires Placed()
      modifies this`connections, event`node
      ensures Placed() && event.node == SetRoom(old(event.node), this, old(Value()).(conns := old(connections) + [c]))
    {
      connections := connections + [c];
      event.Refresh(this);
    }

    /** Joining sets the status without looking at it; the manager asked IsClose before. */
    method SetRunning()
      requires Placed()
      modifies this`status, event`node
      ensures Placed() && event.node == SetRoom(old(event.node), this, old(Value()).(status := Running))
    {
      status := Running;
      event.Refresh(this);
    }

    method Join(c: Id, toAddress: Id, password: string, now: int) returns (ok: bool)
      requires Placed()
      modifies this`activeAt, this`connections, this`status, event`listeners, event`node, event.node.rooms.Keys, event.node.sess.Keys
      ensures Placed() && event.node == RoomJoin(old(event.node), this, c, toAddress, password, now)
      ensures ok <==> JoinAllowed(old(Value()), toAddress, password)
    {
      if address != toAddress || (useSecret && secret != password) {
        return false;
      }
      AddConnection(c);
      SendMessage(Message.Join(c), now);
      SetRunning();
      ok := true;
    }

    method RemoveConnection(c: Id)
      requires Placed()
      modifies this`connections, event`node
      ensures Placed() && event.node == SetRoom(old(event.node), this, old(Value()).(conns := Without(old(connections), c)))
    {
      connections := Dropped(connections, c);
      event.Refresh(this);
    }

    method Leave(c: Id, toAddress: Id, now: int) returns (ok: bool)
      requires Placed()
      modifies this`activeAt, this`connections, event`listeners, event`node, event.node.rooms.Keys, event.node.sess.Keys
      ensures Placed() && event.node == RoomLeave(old(event.node), this, c, toAddress, now)
      ensures ok <==> address == toAddress
    {
      if address != toAddress {
        return false;
      }
      RemoveConnection(c);
      SendMessage(Message.Leave(c), now);
      ok := true;
    }

    /** basicRoom.close: the done channel is closed only when the status changes. */
    method MarkClosed()
      requires Placed() && status != Closed
      modifies this`status, this`closes, event`node
      ensures Placed()
      ensures event.node == SetRoom(old(event.node), this, Marked(old(event.node).rooms[this]))
    {
      hide Known;
      status, closes := Closed, closes + 1;
      event.Refresh(this);
    }

    method Close(now: int)
      requires Placed()
      modifies this`activeAt, this`status, this`closes, event`listeners, event`node, event.node.rooms.Keys, event.node.sess.Keys
      ensures Placed() && event.node == RoomClose(old(event.node), this, now)
    {
      if status == Closed {
        return;
      }
      Retire();
      SendMessage(Message.Close(address, why), now);
    }

    method Retire()
      requires Placed() && status != Closed
      modifies this`status, this`closes, event`listeners, event`node
      ensures Placed() && event.node == Retired(old(event.node), this) && why == old(why)
    {
      MarkClosed();
      event.RemoveListener(address, RoomL(this));
    }

    /** A room that should go records why. */
    method ShouldRemove(now: int) returns (code: CloseReason, remove: bool)
      requires Placed()
      modifies this`why, event`node
      ensures Placed() && event.node == SetRoom(old(event.node), this, Judged(old(Value()), now))
      ensures remove <==> Nodes.ShouldRemove(old(Value()), now)
      ensures code == why
    {
      if status != Closed {
        remove := Judge(now);
      } else {
        remove := true;
      }
      event.Refresh(this);
      code := why;
    }

    method Judge(now: int) returns (remove: bool)
      requires Valid() && status != Closed
      modifies this`why
      ensures Valid() && Value() == Judged(old(Value()), now)
      ensures remove <==> Verdict(old(Value()), now).Some?
    {
      var noUseInitRoom := status == Init && connections == [] && now - createdAt > MINUTE;
      var noUserRoom := status == Running && connections == [] && now - activeAt > MINUTE;
      var noUseRoom := status == Running && now - activeAt > 5 * MINUTE;
      var maxTimeRoom := now - createdAt > HOUR;
      if noUseInitRoom {
        why := NoUseInitRoom;
      } else if noUserRoom {
        why := NoUserRoom;
      } else if noUseRoom {
        why := NoUseRoom;
      } else if maxTimeRoom {
        why := MaxTimeRoom;
      }
      return noUseInitRoom || noUserRoom || noUseRoom || maxTimeRoom;
    }

    /** One turn of the consumer loop that finds a message. */
    method Consume(now: int)
      requires Placed() && messages != []
      modifies this`messages, this`taken, this`activeAt, event`listeners, event`node, event.node.rooms.Keys, event.node.sess.Keys
      ensures Placed()
      ensures var x := old(Value());
              event.node == Nodes.SendMessage(
                SetRoom(old(event.node), this, x.(inbox := Inbox(x.inbox.placed, x.inbox.taken + 1))),
                this, x.inbox.placed[x.inbox.taken], now)
    {
      var m := TakeOne();
      SendMessage(m, now);
    }

    method TakeOne() returns (m: Message)
      requires Placed() && messages != []
      modifies this`messages, this`taken, event`node
      ensures var x := old(Value());
              && m == x.inbox.placed[x.inbox.taken]
              && Placed()
              && event.node == SetRoom(old(event.node), this, x.(inbox := Inbox(x.inbox.placed, x.inbox.taken + 1)))
    {
      m := messages[0];
      messages := messages[1..];
      taken := taken + 1;
      event.Refresh(this);
    }
  }

  datatype Outcome = Done | NotFound | Refused

  class LocalRoomManager {
    const event: LocalEventEmitter
    const maxRoomSize: int
    var roomsMap: map<Id, LocalRoom>

    ghost predicate Valid()
      reads this, event, event.node.rooms.Keys, event.node.sess.Keys
    {
      event.Valid() && forall id :: id in roomsMap ==> roomsMap[id] in event.node.rooms
    }

    ghost function Abs(): Hub<LocalRoom, RemoteRoom>
      reads this, event, event.node.rooms.Keys, event.node.sess.Keys
    {
      Hub(event.node, roomsMap)
    }

    constructor (event: LocalEventEmitter, maxRoomSize: int)
      requires event.Valid()
      ensures Valid() && Abs() == Hub(event.node, map[]) && this.event == event && this.maxRoomSize == maxRoomSize
    {
      this.event, this.maxRoomSize, this.roomsMap := event, maxRoomSize, map[];
    }

    /** isFull, then a second look-up, then a new started room is mapped. */
    method CreateRoom(id: Id, useSecret: bool, secret: string, now: int) returns (outcome: Outcome, room: LocalRoom?)
      requires Valid()
      modifies this, event, event.node.rooms.Keys, event.node.sess.Keys
      ensures Valid()
      ensures var full := |old(roomsMap)| >= maxRoomSize;
              && (Creates(old(Abs()), full, id, useSecret, secret) ==>
                    && outcome == Done && room != null && fresh(room)
                    && Abs() == Nodes.CreateRoom(old(Abs()), full, room, id, useSecret, secret, now))
              && (!Creates(old(Abs()), full, id, useSecret, secret) ==>
                    && Abs() == old(Abs())
                    && (outcome == Done <==> !full && id in roomsMap)
                    && (outcome == Done ==> room == roomsMap[id]))
    {
      if |roomsMap| >= maxRoomSize {
        return Refused, null;
      }
      if id in roomsMap {
        return Done, roomsMap[id];
      }
      if useSecret && secret == "" {
        return Refused, null;
      }
      room := AddRoom(id, useSecret, secret, now);
      return Done, room;
    }

    method AddRoom(id: Id, useSecret: bool, secret: string, now: int) returns (r: LocalRoom)
      requires Valid()
      modifies this`roomsMap, event, event.node.rooms.Keys, event.node.sess.Keys
      ensures Valid() && fresh(r) && r !in old(Abs()).node.rooms
      ensures Abs() == Hub(Enlisted(old(event.node), r, NewRoom(id, useSecret, secret, now), now), old(roomsMap)[id := r])
    {
      r := NewStarted(id, useSecret, secret, now);
      roomsMap := roomsMap[id := r];
    }

    method NewStarted(id: Id, useSecret: bool, secret: string, now: int) returns (r: LocalRoom)
      requires event.Valid()
      modifies event, event.node.rooms.Keys, event.node.sess.Keys
      ensures event.Valid() && fresh(r) && r !in old(event.node).rooms
      ensures event.node == Enlisted(old(event.node), r, NewRoom(id, useSecret, secret, now), now)
    {
      ghost var n := event.node;
      r := new LocalRoom(id, useSecret, secret, event, now);
      assert event.Valid() && event.node == n;
      r.Start(now);
    }

    /** removeRoom, then Close. */
    method Discard(r: LocalRoom, now: int)
      requires Valid() && r in event.node.rooms
      modifies this`roomsMap, event`listeners, event`node, event.node.rooms.Keys, event.node.sess.Keys
      ensures Valid() && Abs() == Hub(RoomClose(old(event.node), r, now), old(roomsMap) - {r.address})
      ensures old(event.node).rooms[r].address == r.address
    {
      roomsMap := roomsMap - {r.address};
      r.Close(now);
    }

    method RemoveRoom(id: Id, now: int)
      requires Valid()
      modifies this`roomsMap, event`listeners, event`node, event.node.rooms.Keys, event.node.sess.Keys
      ensures Valid() && Abs() == Nodes.RemoveRoom(old(Abs()), id, now)
    {
      if id in roomsMap {
        Discard(roomsMap[id], now);
      }
    }

    method JoinRoom(id: Id, c: Id, secret: string, now: int) returns (outcome: Outcome)
      requires Valid()
      modifies event`listeners, event`node, event.node.rooms.Keys, event.node.sess.Keys
      ensures Valid() && Abs() == Nodes.JoinRoom(old(Abs()), id, c, secret, now)
      ensures outcome == Done <==> Joins(old(Abs()), id, secret)
      ensures outcome == NotFound <==> id !in roomsMap || old(roomsMap[id].status) == Closed
    {
      if id !in roomsMap || roomsMap[id].status == Closed {
        return NotFound;
      }
      var ok := roomsMap[id].Join(c, id, secret, now);
      return if ok then Done else Refused;
    }

    method Reap(r: LocalRoom, now: int)
      requires Valid() && r in event.node.rooms
      modifies this`roomsMap, event`listeners, event`node, event.node.rooms.Keys, event.node.sess.Keys
      ensures Valid() && Abs() == Nodes.Reap(old(Abs()), r, now)
    {
      hide RoomClose;
      ghost var x := event.node.rooms[r];
      assert x == r.Value();
      var _, remove := r.ShouldRemove(now);
      if remove {
        Discard(r, now);
      }
    }

    method LeaveRoom(id: Id, c: Id, now: int) returns (outcome: Outcome)
      requires Valid()
      modifies this`roomsMap, event`listeners, event`node, event.node.rooms.Keys, event.node.sess.Keys
      ensures Valid() && Abs() == Nodes.LeaveRoom(old(Abs()), id, c, now)
      ensures outcome == NotFound <==> id !in old(roomsMap)
    {
      if id !in roomsMap {
        return NotFound;
      }
      var r := roomsMap[id];
      if r.status == Closed {
        return Done;
      }
      var _ := r.Leave(c, id, now);
      Reap(r, now);
      return Done;
    }

    /** The sweep visits the rooms mapped when it began, in the arbitrary order of Go's map. */
    method Loop(now: int) returns (ghost order: seq<LocalRoom>)
      requires Valid()
      modifies this`roomsMap, event`listeners, event`node, event.node.rooms.Keys, event.node.sess.Keys
      ensures Valid()
      ensures Visited(order, {}, old(roomsMap).Values) && AllRooms(order, old(Abs()))
      ensures Abs() == Sweep(old(Abs()), order, now)
    {
      var rest := roomsMap.Values;
      order := [];
      assert Sweep(old(Abs()), order, now) == old(Abs());
      assert Visited(order, rest, old(roomsMap).Values) && AllRooms(order, old(Abs()));
      hide Sweep, Nodes.Reap, AllRooms, LocalEventEmitter.Valid;
      while rest != {}
        invariant Valid() && SameObjects(old(Abs()).node, Abs().node) && rest <= event.node.rooms.Keys
        invariant Visited(order, rest, old(roomsMap).Values) && AllRooms(order, old(Abs()))
        invariant Abs() == Sweep(old(Abs()), order, now)
        decreases |rest|
      {
        var r :| r in rest;
        Reap(r, now);
        VisitNext(old(Abs()), order, rest, old(roomsMap).Values, r, now);
        order, rest := order + [r], rest - {r};
      }
    }
  }

  ghost predicate AllRooms<R, S>(order: seq<R>, h: Hub<R, S>) {
    forall r :: r in order ==> r in h.node.rooms
  }

  /** `order` lists each room of `all` outside `rest` once. */
  ghost predicate Visited<R>(order: seq<R>, rest: set<R>, all: set<R>) {
    && rest <= all && Distinct(order)
    && (forall r :: r in order ==> r in all && r !in rest)
    && (forall r :: r in all && r !in rest ==> r in order)
  }

  lemma VisitNext<R, S>(h: Hub<R, S>, order: seq<R>, rest: set<R>, all: set<R>, r: R, now: int)
    requires HubWired(h) && AllRooms(order, h) && r in h.node.rooms && Visited(order, rest, all) && r in rest
    ensures Visited(order + [r], rest - {r}, all) && AllRooms(order + [r], h)
    ensures Sweep(h, order + [r], now) == Nodes.Reap(Sweep(h, order, now), r, now)
  {
    SweepSnoc(h, order, r, now);
  }

  lemma {:induction false} SweepSnoc<R, S>(h: Hub<R, S>, order: seq<R>, r: R, now: int)
    requires HubWired(h) && (forall q :: q in order ==> q in h.node.rooms) && r in h.node.rooms
    ensures Sweep(h, order + [r], now) == Nodes.Reap(Sweep(h, order, now), r, now)
    decreases |order|
  {
    if order == [] {
      assert order + [r] == [r];
    } else {
      assert (order + [r])[1..] == order[1..] + [r];
      SweepSnoc(Nodes.Reap(h, order[0], now), order[1..], r, now);
    }
  }
}
