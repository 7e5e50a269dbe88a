/** How one step, and any number of steps, relate a state to the next: nothing is taken back. */
module History {
  import opened Messages
  import opened Nodes
  import opened Consistency
  import opened RoomEffects
  import opened Monotone
  import opened Cluster
  import opened Invariant
  import opened Preservation

  /** Growth that may also add rooms and sessions. */
  ghost predicate Extends<R, S>(n: Node<R, S>, n': Node<R, S>) {
    && n.rooms.Keys <= n'.rooms.Keys && n.sess.Keys <= n'.sess.Keys
    && (forall r {:trigger n'.rooms[r]} :: r in n.rooms ==> RoomGrows(n.rooms[r], n'.rooms[r]))
    && (forall t {:trigger n'.sess[t]} :: t in n.sess ==> SessionGrows(n.sess[t], n'.sess[t]))
  }

  predicate RoomKept(x: Room, x': Room) {
    && x'.address == x.address && x'.createdAt == x.createdAt && x'.useSecret == x.useSecret && x'.secret == x.secret
    && StatusMove(x.status, x'.status)
    && x.inbox.taken <= x'.inbox.taken && x.inbox.placed <= x'.inbox.placed
  }

  predicate SessionKept(x: Session, x': Session) {
    && x'.conn == x.conn && x'.target == x.target
    && x.inbox.taken <= x'.inbox.taken && x.inbox.placed <= x'.inbox.placed
    && (x.status == Closed ==> x'.status == Closed && x'.inbox.placed == x.inbox.placed)
  }

  ghost predicate Kept<R, S>(s: State<R, S>, s': State<R, S>) {
    && s.hub.node.rooms.Keys <= s'.hub.node.rooms.Keys && s.hub.node.sess.Keys <= s'.hub.node.sess.Keys
    && (forall r {:trigger s'.hub.node.rooms[r]} :: r in s.hub.node.rooms ==>
          RoomKept(s.hub.node.rooms[r], s'.hub.node.rooms[r]))
    && (forall t {:trigger s'.hub.node.sess[t]} :: t in s.hub.node.sess ==>
          SessionKept(s.hub.node.sess[t], s'.hub.node.sess[t]))
  }

  lemma ExtendsKept<R, S>(s: State<R, S>, s': State<R, S>)
    requires Extends(s.hub.node, s'.hub.node)
    ensures Kept(s, s')
  {
  }

  lemma KeptTrans<R, S>(a: State<R, S>, b: State<R, S>, c: State<R, S>)
    requires Kept(a, b) && Kept(b, c)
    ensures Kept(a, c)
  {
    forall r | r in a.hub.node.rooms ensures RoomKept(a.hub.node.rooms[r], c.hub.node.rooms[r]) {
      assert RoomKept(a.hub.node.rooms[r], b.hub.node.rooms[r]) && RoomKept(b.hub.node.rooms[r], c.hub.node.rooms[r]);
    }
    forall t | t in a.hub.node.sess ensures SessionKept(a.hub.node.sess[t], c.hub.node.sess[t]) {
      assert SessionKept(a.hub.node.sess[t], b.hub.node.sess[t]) && SessionKept(b.hub.node.sess[t], c.hub.node.sess[t]);
    }
  }

  lemma CreateExtends<R, S>(s: State<R, S>, r: R, id: Id, useSecret: bool, secret: string, full: bool)
    requires Inv(s) && r !in s.hub.node.rooms
    ensures Extends(s.hub.node, DoCreate(s, r, id, useSecret, secret, full).hub.node)
  {
    if Creates(s.hub, full, id, useSecret, secret) {
      CreateEffect(s.hub, full, r, id, useSecret, secret, s.now);
    }
  }

  lemma LeaveRoomGrows<R, S>(s: State<R, S>, id: Id, c: Id)
    requires HubWired(s.hub)
    ensures Grows(s.hub.node, LeaveRoom(s.hub, id, c, s.now).node)
  {
    if id in s.hub.mapped && s.hub.node.rooms[s.hub.mapped[id]].status != Closed {
      var r := s.hub.mapped[id];
      var n1 := RoomLeave(s.hub.node, r, c, id, s.now);
      LeaveGrows(s.hub.node, r, c, id, s.now);
      ReapGrows(s.hub.(node := n1), r, s.now);
      GrowsTrans(s.hub.node, n1, LeaveRoom(s.hub, id, c, s.now).node);
    }
  }

  lemma JoinRoomGrows<R, S>(s: State<R, S>, id: Id, c: Id, secret: string)
    requires HubWired(s.hub)
    ensures Grows(s.hub.node, JoinRoom(s.hub, id, c, secret, s.now).node)
  {
    if id in s.hub.mapped && s.hub.node.rooms[s.hub.mapped[id]].status != Closed {
      JoinGrows(s.hub.node, s.hub.mapped[id], c, id, secret, s.now);
    }
  }

  lemma EndGrows<R, S>(n: Node<R, S>, t: S)
    requires t in n.sess
    ensures Grows(n, CloseSession(n, t))
  {
    var n' := CloseSession(n, t);
    assert n'.rooms == n.rooms;
    assert forall u :: u in n.sess && u != t ==> n'.sess[u] == n.sess[u];
  }

  predicate TakesNothing<R, S>(e: Step<R, S>) {
    !e.Begin? && !e.Deliver? && !e.Take?
  }

  lemma GrowsExtends<R, S>(n: Node<R, S>, n': Node<R, S>)
    requires Grows(n, n')
    ensures Extends(n, n')
  {
  }

  lemma SameExtends<R, S>(n: Node<R, S>, n': Node<R, S>)
    requires n'.rooms == n.rooms && n'.sess == n.sess
    ensures Extends(n, n')
  {
  }

  lemma RegisterExtends<R, S>(s: State<R, S>, c: Id, t: S)
    requires HubWired(s.hub) && c in s.clients && t !in s.hub.node.sess
    ensures Extends(s.hub.node, DoRegister(s, c, t).hub.node)
  {
  }

  lemma HubStepExtends<R, S>(s: State<R, S>, e: Step<R, S>)
    requires Inv(s) && Enabled(s, e) && TakesNothing(e)
    ensures Extends(s.hub.node, Apply(s, e).hub.node)
  {
    hide RoomInv, MemberInv, ClientInv, MappedInv, OrderInv, Tidy, Emit, Sweep, RoomClose, LeaveRoom, JoinRoom, CloseSession;
    hide Grows, Extends, StartSession;
    var n, n' := s.hub.node, Apply(s, e).hub.node;
    match e
    case Create(r, id, useSecret, secret, full) => CreateExtends(s, r, id, useSecret, secret, full);
    case Register(c, t) => RegisterExtends(s, c, t);
    case Remove(id) =>
      if id in s.hub.mapped { CloseGrows(n, s.hub.mapped[id], s.now); GrowsExtends(n, n'); } else { SameExtends(n, n'); }
    case Sweeping(order) => SweepGrows(s.hub, order, s.now); GrowsExtends(n, n');
    case Joining(c, secret) => JoinRoomGrows(s, s.clients[c].target, c, secret); GrowsExtends(n, n');
    case Departing(c) => LeaveRoomGrows(s, s.clients[c].target, c); GrowsExtends(n, n');
    case EndSession(c) => EndGrows(n, s.clients[c].phase.sess); GrowsExtends(n, n');
    case SendAll(c, data, includeSelf) => EmitGrows(n, s.clients[c].target, Broadcast(data, c, includeSelf)); GrowsExtends(n, n');
    case SendOne(c, data, to) => EmitGrows(n, to, Unicast(data, c, Some(to))); GrowsExtends(n, n');
    case Tick(_) => SameExtends(n, n');
    case Network(_) => SameExtends(n, n');
    case Connect(_, _) => SameExtends(n, n');
    case LeaveLost(_) => SameExtends(n, n');
  }

  lemma BeginKept<R, S>(s: State<R, S>, r: R)
    requires HubWired(s.hub) && CanBegin(s, r)
    ensures Kept(s, DoBegin(s, r))
  {
  }

  lemma DeliverKept<R, S>(s: State<R, S>, r: R)
    requires HubWired(s.hub) && CanDeliver(s, r)
    ensures Kept(s, DoDeliver(s, r))
  {
    EmitGrows(s.hub.node, s.work[r][0], Current(s.hub.node, r));
  }

  lemma TakeKept<R, S>(s: State<R, S>, t: S)
    requires HubWired(s.hub) && t in s.hub.node.sess
    ensures Kept(s, DoTake(s, t))
  {
  }

  /** Across every step: addresses and queued messages stay, room statuses only move forward,
      and a closed session stays closed with the inbox it closed with. */
  lemma StepKept<R, S>(s: State<R, S>, e: Step<R, S>)
    requires Inv(s)
    ensures Kept(s, Apply(s, e))
  {
    if Enabled(s, e) {
      if e.Begin? { BeginKept(s, e.r); }
      else if e.Deliver? { DeliverKept(s, e.r); }
      else if e.Take? { TakeKept(s, e.s); }
      else {
        HubStepExtends(s, e);
        ExtendsKept(s, Apply(s, e));
      }
    }
  }

  lemma RunLast<R, S>(steps: seq<Step<R, S>>, more: seq<Step<R, S>>)
    requires more != []
    ensures Run(steps + more) == Apply(Run(steps + more[..|more| - 1]), more[|more| - 1])
  {
    hide Apply;
    assert (steps + more)[..|steps + more| - 1] == steps + more[..|more| - 1];
  }

  lemma {:induction false} RunKept<R, S>(steps: seq<Step<R, S>>, more: seq<Step<R, S>>)
    ensures Kept(Run(steps), Run(steps + more))
    decreases |more|
  {
    if more == [] {
      assert steps + more == steps;
    } else {
      var last := |more| - 1;
      RunLast(steps, more);
      hide Run, Apply, Inv, Kept;
      RunKept(steps, more[..last]);
      RunInv(steps + more[..last]);
      StepKept(Run(steps + more[..last]), more[last]);
      KeptTrans(Run(steps), Run(steps + more[..last]), Run(steps + more));
    }
  }
}
