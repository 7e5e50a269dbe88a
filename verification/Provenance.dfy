/** Where the messages in an inbox come from, and whom a message is handed to. */
module Provenance {
  import opened Messages
  import opened Nodes
  import opened Consistency
  import opened Cluster
  import opened Invariant
  import opened Preservation
  import opened Told
  import opened Membership
  import opened Creation

  predicate FromClient(m: Message) {
    m.Broadcast? || m.Unicast?
  }

  // ---- operations of rooms add no client message to any inbox ----

  predicate AddsNotices(a: seq<Message>, b: seq<Message>) {
    a <= b && forall i :: |a| <= i < |b| ==> !FromClient(b[i])
  }

  ghost predicate Noticed<R, S>(n: Node<R, S>, n': Node<R, S>) {
    && n'.rooms.Keys == n.rooms.Keys && n'.sess.Keys == n.sess.Keys
    && (forall r {:trigger n'.rooms[r]} :: r in n.rooms ==>
          n'.rooms[r].address == n.rooms[r].address && AddsNotices(n.rooms[r].inbox.placed, n'.rooms[r].inbox.placed))
    && (forall t {:trigger n'.sess[t]} :: t in n.sess ==>
          n'.sess[t].conn == n.sess[t].conn && AddsNotices(n.sess[t].inbox.placed, n'.sess[t].inbox.placed))
  }

  lemma NoticedTwice<R, S>(a: Node<R, S>, b: Node<R, S>, c: Node<R, S>)
    requires Noticed(a, b) && Noticed(b, c)
    ensures Noticed(a, c)
  {
    forall r | r in a.rooms
      ensures c.rooms[r].address == a.rooms[r].address && AddsNotices(a.rooms[r].inbox.placed, c.rooms[r].inbox.placed)
    {
      assert b.rooms[r].address == a.rooms[r].address;
    }
    forall t | t in a.sess ensures c.sess[t].conn == a.sess[t].conn && AddsNotices(a.sess[t].inbox.placed, c.sess[t].inbox.placed) {
      assert b.sess[t].conn == a.sess[t].conn;
    }
  }

  lemma OneRoomNoticed<R, S>(n: Node<R, S>, n': Node<R, S>, r: R)
    requires r in n.rooms && r in n'.rooms && n'.sess == n.sess && n'.rooms == n.rooms[r := n'.rooms[r]]
    requires n'.rooms[r].address == n.rooms[r].address && AddsNotices(n.rooms[r].inbox.placed, n'.rooms[r].inbox.placed)
    ensures Noticed(n, n')
  {
  }

  lemma OneSessionNoticed<R, S>(n: Node<R, S>, n': Node<R, S>, t: S)
    requires t in n.sess && t in n'.sess && n'.rooms == n.rooms && n'.sess == n.sess[t := n'.sess[t]]
    requires n'.sess[t].conn == n.sess[t].conn && AddsNotices(n.sess[t].inbox.placed, n'.sess[t].inbox.placed)
    ensures Noticed(n, n')
  {
  }

  lemma TurnNoticed<R, S>(n: Node<R, S>, a: Id, l: Listener<R, S>, m: Message)
    requires Wired(n) && Known(n, l) && !FromClient(m)
    ensures Noticed(n, Turn(n, a, l, m))
  {
    var n' := Turn(n, a, l, m);
    hide Noticed, AddsNotices, Without;
    match l
    case RoomL(q) =>
      PutAdds(n.rooms[q].inbox, m);
      OneRoomNoticed(n, n', q);
    case SessL(u) =>
      PutAdds(n.sess[u].inbox, m);
      OneSessionNoticed(n, n', u);
  }

  lemma PutAdds(b: Inbox, m: Message)
    requires !FromClient(m)
    ensures AddsNotices(b.placed, b.Put(m).placed) && AddsNotices(b.placed, b.placed)
  {
  }

  lemma SetNoticed<R, S>(n: Node<R, S>, r: R, x: Room)
    requires Wired(n) && r in n.rooms && x.address == n.rooms[r].address && x.inbox == n.rooms[r].inbox
    ensures Noticed(n, SetRoom(n, r, x))
  {
    OneRoomNoticed(n, SetRoom(n, r, x), r);
  }

  lemma {:induction false} EmitToNoticed<R, S>(n: Node<R, S>, a: Id, ls: seq<Listener<R, S>>, m: Message)
    requires Wired(n) && AllKnown(n, ls) && !FromClient(m)
    ensures Noticed(n, EmitTo(n, a, ls, m))
    decreases |ls|
  {
    if ls == [] {
    } else {
      var n1 := Turn(n, a, ls[0], m);
      assert AllKnown(n1, ls[1..]) by { assert forall l :: l in ls[1..] ==> l in ls && Known(n, l); }
      TurnNoticed(n, a, ls[0], m);
      hide Turn, Noticed, Known;
      EmitToNoticed(n1, a, ls[1..], m);
      NoticedTwice(n, n1, EmitTo(n1, a, ls[1..], m));
    }
  }

  lemma {:induction false} EmitEachNoticed<R, S>(n: Node<R, S>, cs: seq<Id>, m: Message)
    requires Wired(n) && !FromClient(m)
    ensures Noticed(n, EmitEach(n, cs, m))
    decreases |cs|
  {
    if cs == [] {
    } else {
      var n1 := Emit(n, cs[0], m);
      if cs[0] !in n.down { EmitToNoticed(n, cs[0], ListenersAt(n, cs[0]), m); }
      assert Noticed(n, n1);
      hide Emit, Noticed;
      EmitEachNoticed(n1, cs[1..], m);
      NoticedTwice(n, n1, EmitEach(n1, cs[1..], m));
    }
  }

  /** A change of the room itself, then a notice. */
  lemma SaysNoticed<R, S>(n: Node<R, S>, n1: Node<R, S>, r: R, m: Message, now: int)
    requires Wired(n1) && r in n1.rooms && !FromClient(m) && Noticed(n, n1)
    ensures Noticed(n, SendMessage(n1, r, m, now))
  {
    if !m.Unknown? {
      var x := n1.rooms[r];
      var n2 := SetRoom(n1, r, x.(activeAt := now));
      assert Noticed(n1, n2);
      EmitEachNoticed(n2, Recipients(m, x.conns), m);
      hide Noticed, EmitEach;
      NoticedTwice(n, n1, n2);
      NoticedTwice(n, n2, SendMessage(n1, r, m, now));
    }
  }

  lemma CloseNoticed<R, S>(n: Node<R, S>, r: R, now: int)
    requires Wired(n) && r in n.rooms
    ensures Noticed(n, RoomClose(n, r, now))
  {
    if n.rooms[r].status != Closed {
      assert Noticed(n, Retired(n, r));
      SaysNoticed(n, Retired(n, r), r, Close(n.rooms[r].address, n.rooms[r].why), now);
    }
  }

  lemma JoinNoticed<R, S>(n: Node<R, S>, r: R, c: Id, address: Id, secret: string, now: int)
    requires Wired(n) && r in n.rooms
    ensures Noticed(n, RoomJoin(n, r, c, address, secret, now))
  {
    var x := n.rooms[r];
    if JoinAllowed(x, address, secret) {
      var n1 := SetRoom(n, r, x.(conns := x.conns + [c]));
      var n2 := SendMessage(n1, r, Join(c), now);
      hide Noticed, SendMessage;
      SetNoticed(n, r, x.(conns := x.conns + [c]));
      SaysNoticed(n, n1, r, Join(c), now);
      SetNoticed(n2, r, n2.rooms[r].(status := Running));
      NoticedTwice(n, n2, RoomJoin(n, r, c, address, secret, now));
    }
  }

  lemma LeaveNoticed<R, S>(n: Node<R, S>, r: R, c: Id, address: Id, now: int)
    requires Wired(n) && r in n.rooms
    ensures Noticed(n, RoomLeave(n, r, c, address, now))
  {
    var x := n.rooms[r];
    if x.address == address {
      SaysNoticed(n, SetRoom(n, r, x.(conns := Without(x.conns, c))), r, Message.Leave(c), now);
    }
  }

  lemma ReapNoticed<R, S>(h: Hub<R, S>, r: R, now: int)
    requires HubWired(h) && r in h.node.rooms
    ensures Noticed(h.node, Reap(h, r, now).node)
  {
    var x := h.node.rooms[r];
    var n1 := SetRoom(h.node, r, Judged(x, now));
    assert Noticed(h.node, n1);
    if ShouldRemove(x, now) {
      CloseNoticed(n1, r, now);
      hide Noticed, RoomClose;
      NoticedTwice(h.node, n1, Reap(h, r, now).node);
    }
  }

  lemma {:induction false} SweepNoticed<R, S>(h: Hub<R, S>, order: seq<R>, now: int)
    requires HubWired(h) && forall r :: r in order ==> r in h.node.rooms
    ensures Noticed(h.node, Sweep(h, order, now).node)
    decreases |order|
  {
    if order == [] {
    } else {
      var h1 := Reap(h, order[0], now);
      ReapNoticed(h, order[0], now);
      hide Reap, Noticed;
      SweepNoticed(h1, order[1..], now);
      NoticedTwice(h.node, h1.node, Sweep(h, order, now).node);
    }
  }

  lemma LeaveRoomNoticed<R, S>(h: Hub<R, S>, id: Id, c: Id, now: int)
    requires HubWired(h)
    ensures Noticed(h.node, LeaveRoom(h, id, c, now).node)
  {
    if id in h.mapped && h.node.rooms[h.mapped[id]].status != Closed {
      var r := h.mapped[id];
      var h1 := h.(node := RoomLeave(h.node, r, c, id, now));
      LeaveNoticed(h.node, r, c, id, now);
      ReapNoticed(h1, r, now);
      hide Noticed, Reap, RoomLeave;
      NoticedTwice(h.node, h1.node, LeaveRoom(h, id, c, now).node);
    }
  }

  // ---- every client message was sent ----

  /** The run has a step `e` that took effect. */
  ghost predicate Happened<R, S>(steps: seq<Step<R, S>>, e: Step<R, S>) {
    exists k :: 0 <= k < |steps| && steps[k] == e && Enabled(Run(steps[..k]), e)
  }

  /** A client message at address `a` was sent in the run, with that text and by that sender; a unicast was
      sent to `a`. */
  ghost predicate Genuine<R(!new), S(!new)>(steps: seq<Step<R, S>>, a: Id, m: Message) {
    match m
    case Broadcast(data, from, includeSelf) => Happened(steps, SendAll(from, data, includeSelf))
    case Unicast(data, from, to) => to == Some(a) && Happened(steps, SendOne(from, data, a))
    case _ => true
  }

  ghost predicate AllGenuine<R(!new), S(!new)>(steps: seq<Step<R, S>>, a: Id, ms: seq<Message>) {
    forall i :: 0 <= i < |ms| ==> Genuine(steps, a, ms[i])
  }

  ghost predicate NodeGenuine<R(!new), S(!new)>(steps: seq<Step<R, S>>, n: Node<R, S>) {
    && (forall t :: t in n.sess ==> AllGenuine(steps, n.sess[t].conn, n.sess[t].inbox.placed))
    && (forall r :: r in n.rooms ==> AllGenuine(steps, n.rooms[r].address, n.rooms[r].inbox.placed))
  }

  lemma HappenedSnoc<R, S>(steps: seq<Step<R, S>>, x: Step<R, S>, e: Step<R, S>)
    ensures Happened(steps, e) ==> Happened(steps + [x], e)
    ensures Enabled(Run(steps), x) ==> Happened(steps + [x], x)
  {
    hide Enabled, Run;
    var more := steps + [x];
    if Happened(steps, e) {
      var k :| 0 <= k < |steps| && steps[k] == e && Enabled(Run(steps[..k]), e);
      assert more[..k] == steps[..k] && more[k] == e;
    }
    assert more[..|steps|] == steps && more[|steps|] == x;
  }

  lemma GenuineSnoc<R(!new), S(!new)>(steps: seq<Step<R, S>>, x: Step<R, S>, n: Node<R, S>)
    requires NodeGenuine(steps, n)
    ensures NodeGenuine(steps + [x], n)
  {
    forall e: Step<R, S> | Happened(steps, e) ensures Happened(steps + [x], e) { HappenedSnoc(steps, x, e); }
    hide Happened;
  }

  lemma NoticedGenuine<R(!new), S(!new)>(steps: seq<Step<R, S>>, n: Node<R, S>, n': Node<R, S>)
    requires NodeGenuine(steps, n) && Noticed(n, n')
    ensures NodeGenuine(steps, n')
  {
    hide Happened;
    forall t | t in n'.sess ensures AllGenuine(steps, n'.sess[t].conn, n'.sess[t].inbox.placed) {
      assert AddsNotices(n.sess[t].inbox.placed, n'.sess[t].inbox.placed);
      assert AllGenuine(steps, n.sess[t].conn, n.sess[t].inbox.placed);
    }
    forall r | r in n'.rooms ensures AllGenuine(steps, n'.rooms[r].address, n'.rooms[r].inbox.placed) {
      assert AddsNotices(n.rooms[r].inbox.placed, n'.rooms[r].inbox.placed);
      assert AllGenuine(steps, n.rooms[r].address, n.rooms[r].inbox.placed);
    }
  }

  lemma AppendGenuine<R(!new), S(!new)>(steps: seq<Step<R, S>>, a: Id, ms: seq<Message>, m: Message)
    requires AllGenuine(steps, a, ms) && Genuine(steps, a, m)
    ensures AllGenuine(steps, a, ms + [m])
  {
  }

  lemma HearsGenuine<R(!new), S(!new)>(steps: seq<Step<R, S>>, y: Session, a: Id, m: Message, down: set<Id>)
    requires Genuine(steps, a, m) && AllGenuine(steps, y.conn, y.inbox.placed)
    ensures var y' := Hears(y, [a], m, down); y'.conn == y.conn && AllGenuine(steps, y'.conn, y'.inbox.placed)
  {
    hide Genuine, AllGenuine;
    if y.conn == a { AppendGenuine(steps, a, y.inbox.placed, m); }
  }

  lemma RoomHearsGenuine<R(!new), S(!new)>(steps: seq<Step<R, S>>, x: Room, a: Id, m: Message, down: set<Id>)
    requires Genuine(steps, a, m) && AllGenuine(steps, x.address, x.inbox.placed)
    ensures var x' := HearsRoom(x, [a], m, down); x'.address == x.address && AllGenuine(steps, x'.address, x'.inbox.placed)
  {
    hide Genuine, AllGenuine;
    if x.address == a { AppendGenuine(steps, a, x.inbox.placed, m); }
  }

  /** Emitting a genuine message. */
  lemma EmitGenuine<R(!new), S(!new)>(steps: seq<Step<R, S>>, n: Node<R, S>, a: Id, m: Message)
    requires Tidy(n) && NodeGenuine(steps, n) && Genuine(steps, a, m)
    ensures NodeGenuine(steps, Emit(n, a, m))
  {
    EmitOnTidy(n, a, m);
    hide Tidy, Emit, Genuine, AllGenuine, Hears, HearsRoom;
    var n' := Emit(n, a, m);
    forall t | t in n'.sess ensures AllGenuine(steps, n'.sess[t].conn, n'.sess[t].inbox.placed) {
      HearsGenuine(steps, n.sess[t], a, m, n.down);
    }
    forall r | r in n'.rooms ensures AllGenuine(steps, n'.rooms[r].address, n'.rooms[r].inbox.placed) {
      RoomHearsGenuine(steps, n.rooms[r], a, m, n.down);
    }
  }

  /** The message room `r` hands on next is genuine where it goes. */
  lemma HandsOnGenuine<R(!new), S(!new)>(steps: seq<Step<R, S>>, s: State<R, S>, r: R)
    requires Inv(s) && NodeGenuine(steps, s.hub.node) && Enabled(s, Deliver(r))
    ensures Genuine(steps, s.work[r][0], Current(s.hub.node, r))
  {
    hide MappedInv, ClientInv, OrderInv, Tidy, Happened;
    var x := s.hub.node.rooms[r];
    assert RoomInv(s, r) && MemberInv(s, r, s.work[r][0]);
    assert AllGenuine(steps, x.address, x.inbox.placed);
    assert Genuine(steps, x.address, x.inbox.placed[x.inbox.taken - 1]);
  }

  /** A step in which no client message moves. */
  lemma QuietGenuine<R(!new), S(!new)>(steps: seq<Step<R, S>>, s: State<R, S>, e: Step<R, S>)
    requires Inv(s) && NodeGenuine(steps, s.hub.node) && Enabled(s, e) && !e.SendAll? && !e.SendOne? && !e.Deliver?
    ensures NodeGenuine(steps, Apply(s, e).hub.node)
  {
    hide RoomInv, MemberInv, ClientInv, MappedInv, OrderInv, Tidy, Genuine;
    hide Sweep, LeaveRoom, RoomClose, RoomJoin, CreateRoom, Noticed, NodeGenuine;
    var n, n' := s.hub.node, Apply(s, e).hub.node;
    match e
    case Remove(id) =>
      if id in s.hub.mapped { CloseNoticed(n, s.hub.mapped[id], s.now); NoticedGenuine(steps, n, n'); }
    case Sweeping(order) => SweepNoticed(s.hub, order, s.now); NoticedGenuine(steps, n, n');
    case Joining(c, secret) =>
      if s.clients[c].target in s.hub.mapped && s.hub.node.rooms[s.hub.mapped[s.clients[c].target]].status != Closed {
        JoinNoticed(n, s.hub.mapped[s.clients[c].target], c, s.clients[c].target, secret, s.now);
        NoticedGenuine(steps, n, n');
      }
    case Departing(c) => LeaveRoomNoticed(s.hub, s.clients[c].target, c, s.now); NoticedGenuine(steps, n, n');
    case Create(_, _, _, _, _) => CreatePlaces(s, e); NothingGenuine(steps, n, n');
    case _ => StillPlaces(s, e); NothingGenuine(steps, n, n');
  }

  /** What was there has the same messages; what is new has none. */
  ghost predicate NothingPlaced<R, S>(n: Node<R, S>, n': Node<R, S>) {
    && (forall t :: t in n'.sess ==>
          if t in n.sess then n'.sess[t].conn == n.sess[t].conn && n'.sess[t].inbox.placed == n.sess[t].inbox.placed
          else n'.sess[t].inbox.placed == [])
    && (forall r :: r in n'.rooms ==>
          if r in n.rooms then n'.rooms[r].address == n.rooms[r].address && n'.rooms[r].inbox.placed == n.rooms[r].inbox.placed
          else n'.rooms[r].inbox.placed == [])
  }

  lemma NothingGenuine<R(!new), S(!new)>(steps: seq<Step<R, S>>, n: Node<R, S>, n': Node<R, S>)
    requires NodeGenuine(steps, n) && NothingPlaced(n, n')
    ensures NodeGenuine(steps, n')
  {
    hide Genuine;
  }

  lemma CreatePlaces<R, S>(s: State<R, S>, e: Step<R, S>)
    requires Inv(s) && Enabled(s, e) && e.Create?
    ensures NothingPlaced(s.hub.node, Apply(s, e).hub.node)
  {
    CreateStep(s, e);
    hide Apply, Inv, Accepted;
  }

  lemma EndPlaces<R, S>(s: State<R, S>, e: Step<R, S>)
    requires HubWired(s.hub) && Enabled(s, e) && e.EndSession?
    ensures NothingPlaced(s.hub.node, Apply(s, e).hub.node)
  {
    hide Without, Noted;
  }

  lemma RegisterPlaces<R, S>(s: State<R, S>, e: Step<R, S>)
    requires HubWired(s.hub) && Enabled(s, e) && e.Register?
    ensures NothingPlaced(s.hub.node, Apply(s, e).hub.node)
  {
    hide Noted;
  }

  lemma StillPlaces<R, S>(s: State<R, S>, e: Step<R, S>)
    requires HubWired(s.hub) && Enabled(s, e)
    requires e.Register? || e.EndSession? || e.Begin? || e.Take? || e.Tick? || e.Network? || e.Connect? || e.LeaveLost?
    ensures NothingPlaced(s.hub.node, Apply(s, e).hub.node)
  {
    if e.Register? { RegisterPlaces(s, e); }
    else if e.EndSession? { EndPlaces(s, e); }
    else {
      hide Recipients, Without, CloseSession, StartSession, Noted;
    }
  }

  /** Sending and handing on. */
  lemma SpeakGenuine<R(!new), S(!new)>(steps: seq<Step<R, S>>, e: Step<R, S>)
    requires var s := Run(steps); Inv(s) && NodeGenuine(steps, s.hub.node) && Enabled(s, e)
    requires e.SendAll? || e.SendOne? || e.Deliver?
    ensures NodeGenuine(steps + [e], Apply(Run(steps), e).hub.node)
  {
    var s, more := Run(steps), steps + [e];
    HappenedSnoc(steps, e, e);
    GenuineSnoc(steps, e, s.hub.node);
    if e.Deliver? { HandsOnGenuine(more, s, e.r); }
    var a := if e.SendAll? then s.clients[e.c].target else if e.SendOne? then e.to else s.work[e.r][0];
    var m := if e.SendAll? then Broadcast(e.data, e.c, e.includeSelf)
             else if e.SendOne? then Unicast(e.data, e.c, Some(e.to)) else Current(s.hub.node, e.r);
    assert Apply(s, e).hub.node == Emit(s.hub.node, a, m);
    hide Run, Apply, NodeGenuine, RoomInv, MemberInv, ClientInv, MappedInv, OrderInv, Tidy, Happened;
    EmitGenuine(more, s.hub.node, a, m);
  }

  lemma {:induction false} RunGenuine<R(!new), S(!new)>(steps: seq<Step<R, S>>)
    ensures NodeGenuine(steps, Run(steps).hub.node)
    decreases |steps|
  {
    if steps == [] {
    } else {
      var init, e := steps[..|steps| - 1], steps[|steps| - 1];
      var s := Run(init);
      assert steps == init + [e] && Run(steps) == Apply(s, e);
      RunGenuine(init);
      RunInv(init);
      hide Run, Inv, NodeGenuine;
      GenuineSnoc(init, e, s.hub.node);
      if !Enabled(s, e) {
        Disabled(s, e);
      } else {
        hide Apply, Enabled;
        if e.SendAll? || e.SendOne? || e.Deliver? { SpeakGenuine(init, e); } else { QuietGenuine(steps, s, e); }
      }
    }
  }

  /** In every run, every client message in the inbox of a session was sent: by a SendAll or SendOne step
      of the connection it names as sender, with that text and that flag, and a unicast to that session's
      own connection. Nothing is made up, altered, or shown to another than its addressee. */
  lemma Authentic<R(!new), S(!new)>(steps: seq<Step<R, S>>, t: S, i: nat)
    requires t in Run(steps).hub.node.sess && i < |Run(steps).hub.node.sess[t].inbox.placed|
    ensures var y := Run(steps).hub.node.sess[t];
            match y.inbox.placed[i]
            case Broadcast(data, from, includeSelf) =>
              exists k :: 0 <= k < |steps| && steps[k] == SendAll(from, data, includeSelf) && Enabled(Run(steps[..k]), steps[k])
            case Unicast(data, from, to) =>
              && to == Some(y.conn)
              && exists k :: 0 <= k < |steps| && steps[k] == SendOne(from, data, y.conn) && Enabled(Run(steps[..k]), steps[k])
            case _ => true
  {
    RunGenuine(steps);
    hide Run, Enabled;
    var y := Run(steps).hub.node.sess[t];
    assert AllGenuine(steps, y.conn, y.inbox.placed);
    assert Genuine(steps, y.conn, y.inbox.placed[i]);
  }

  // ---- and what is sent arrives ----

  /** A unicast reaches the open sessions of its addressee that can be reached and have space, with the
      sender's name, and no other session and no open room under another address. */
  lemma UnicastReaches<R, S>(steps: seq<Step<R, S>>, c: Id, data: string, to: Id, t: S)
    requires Enabled(Run(steps), SendOne(c, data, to)) && t in Run(steps).hub.node.sess
    ensures var y, y' := Run(steps).hub.node.sess[t], Run(steps + [SendOne(c, data, to)]).hub.node.sess;
            && t in y'
            && (y.conn == to && Hearing(y, 1, Run(steps).hub.node.down) ==>
                  y'[t] == y.(inbox := y.inbox.(placed := y.inbox.placed + [Unicast(data, c, Some(to))])))
            && (y.conn != to ==> y'[t] == y)
  {
    var s, e := Run(steps), SendOne(c, data, to);
    RunInv(steps);
    RunSnoc(steps, e);
    hide Run, Apply, Inv;
    SessionTold(s, e, t);
    HearsTo(s.hub.node.sess[t], [to], Unicast(data, c, Some(to)), s.hub.node.down);
  }

  /** Room `x` can be reached and has space for one more message. */
  predicate RoomHearing(x: Room, down: set<Id>) {
    x.address !in down && |x.inbox.placed| - x.inbox.taken < 2000
  }

  /** A broadcast is queued, with the sender's name, by the room the sender is served by, as long as the
      room is open, can be reached and has space; and by no open room under another address. */
  lemma BroadcastQueued<R, S>(steps: seq<Step<R, S>>, c: Id, data: string, includeSelf: bool, r: R)
    requires Enabled(Run(steps), SendAll(c, data, includeSelf)) && r in Run(steps).hub.node.rooms
    requires Run(steps).hub.node.rooms[r].status != Closed
    ensures var s, rooms' := Run(steps), Run(steps + [SendAll(c, data, includeSelf)]).hub.node.rooms;
            var x := s.hub.node.rooms[r];
            && r in rooms'
            && (s.clients[c].phase.room == r && RoomHearing(x, s.hub.node.down) ==>
                  rooms'[r] == x.(inbox := x.inbox.(placed := x.inbox.placed + [Broadcast(data, c, includeSelf)])))
            && (s.hub.node.rooms[r].address != s.clients[c].target ==> rooms'[r] == x)
  {
    var s, e := Run(steps), SendAll(c, data, includeSelf);
    RunInv(steps);
    RunSnoc(steps, e);
    assert ClientInv(s, c);
    hide Run, HubWired, RoomInv, MemberInv, ClientInv, MappedInv, OrderInv;
    EmitOnTidy(s.hub.node, s.clients[c].target, Broadcast(data, c, includeSelf));
    QueuedBy(s.hub.node.rooms[r], s.clients[c].target, Broadcast(data, c, includeSelf), s.hub.node.down);
    hide Emit, Tidy, HearsRoom, RoomHearing;
  }

  lemma QueuedBy(x: Room, a: Id, m: Message, down: set<Id>)
    requires x.status != Closed
    ensures x.address == a && RoomHearing(x, down) ==>
              HearsRoom(x, [a], m, down) == x.(inbox := x.inbox.(placed := x.inbox.placed + [m]))
    ensures x.address != a ==> HearsRoom(x, [a], m, down) == x
  {
  }

  /** When a room takes a message it fixes the receivers: for a broadcast all members, without the sender
      unless it asked to be included; for a unicast the addressee, if it is a member; for what a room says
      of itself all members; for a ping nobody. */
  lemma ReceiversAre<R, S>(steps: seq<Step<R, S>>, r: R, c: Id)
    requires Enabled(Run(steps), Begin(r))
    ensures var s, s' := Run(steps), Run(steps + [Begin(r)]);
            var x := s.hub.node.rooms[r];
            var m := x.inbox.placed[x.inbox.taken];
            && r in s'.work && Distinct(s'.work[r])
            && (c in s'.work[r] <==>
                  && c in x.conns && !m.Ping? && !m.Unknown?
                  && (m.Broadcast? && m.from == c ==> m.includeSelf)
                  && (m.Unicast? ==> m.to == Some(c)))
  {
    var s := Run(steps);
    RunInv(steps);
    RunSnoc(steps, Begin(r));
    assert RoomOk(s.hub.node, r);
    Receives(s.hub.node.rooms[r].inbox.placed[s.hub.node.rooms[r].inbox.taken], s.hub.node.rooms[r].conns, c);
    hide Run, Inv, Recipients, RoomOk;
  }

  lemma Receives(m: Message, conns: seq<Id>, c: Id)
    ensures c in Recipients(m, conns) <==>
              && c in conns && !m.Ping? && !m.Unknown?
              && (m.Broadcast? && m.from == c ==> m.includeSelf)
              && (m.Unicast? ==> m.to == Some(c))
  {
  }
}
