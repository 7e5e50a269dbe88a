/** What a room keeps of its creation. */
module Creation {
  import opened Messages
  import opened Nodes
  import opened Consistency
  import opened RoomEffects
  import opened Cluster
  import opened Invariant
  import opened Preservation
  import opened History
  import opened Membership

  /** The step asks for room object `r`, and the manager is not full, does not know the id, and gets a
      secret where one is asked for. */
  ghost predicate Accepted<R, S>(s: State<R, S>, e: Step<R, S>) {
    e.Create? && !e.full && e.id !in s.hub.mapped && (e.useSecret ==> e.secret != "")
  }

  /** A room exactly as it was asked for, made at `now`: nobody in it, nothing queued, both clocks new. */
  predicate AsAsked(x: Room, id: Id, useSecret: bool, secret: string, now: int) {
    && x.address == id && x.useSecret == useSecret && x.secret == secret
    && x.createdAt == now && x.activeAt == now
    && x.status == Init && x.conns == [] && x.inbox.placed == [] && x.inbox.taken == 0
  }

  /** A Create step makes the room that was asked for when it is accepted, and changes nothing otherwise;
      it touches no other room. */
  lemma CreatedRoom<R, S>(steps: seq<Step<R, S>>, e: Step<R, S>)
    requires e.Create? && Enabled(Run(steps), e)
    ensures var s, s' := Run(steps), Run(steps + [e]);
            && (e.r in s'.hub.node.rooms <==> Accepted(s, e))
            && (Accepted(s, e) ==>
                  && AsAsked(s'.hub.node.rooms[e.r], e.id, e.useSecret, e.secret, s.now)
                  && e.id in s'.hub.mapped && s'.hub.mapped[e.id] == e.r)
            && (!Accepted(s, e) ==> s' == s)
            && (forall q :: q in s.hub.node.rooms ==> q in s'.hub.node.rooms && s'.hub.node.rooms[q] == s.hub.node.rooms[q])
  {
    RunInv(steps);
    RunSnoc(steps, e);
    hide Run, Inv, Apply;
    CreateStep(Run(steps), e);
  }

  lemma CreateStep<R, S>(s: State<R, S>, e: Step<R, S>)
    requires Inv(s) && e.Create? && Enabled(s, e)
    ensures if Accepted(s, e)
            then && Apply(s, e).hub.node.rooms == s.hub.node.rooms[e.r := NewRoom(e.id, e.useSecret, e.secret, s.now)]
                 && Apply(s, e).hub.mapped == s.hub.mapped[e.id := e.r] && Apply(s, e).hub.node.sess == s.hub.node.sess
            else Apply(s, e) == s
  {
    hide RoomInv, MemberInv, ClientInv, MappedInv, OrderInv, Tidy;
    if Accepted(s, e) {
      CreateEffect(s.hub, e.full, e.r, e.id, e.useSecret, e.secret, s.now);
      hide CreateRoom;
    }
  }

  /** From its creation on, for as long as the room is mapped: a join is accepted exactly when the secret
      fits the one the room was created with, or none was asked for. Who is accepted is on the list and
      served; who is refused changes no room and may try again. */
  lemma SecretDecides<R, S>(steps: seq<Step<R, S>>, e: Step<R, S>, more: seq<Step<R, S>>, c: Id, secret: string)
    requires Enabled(Run(steps), e) && Accepted(Run(steps), e)
    requires var s := Run(steps + [e] + more);
             && e.id in s.hub.mapped && s.hub.mapped[e.id] == e.r
             && c in s.clients && s.clients[c].phase.Started? && s.clients[c].target == e.id
    ensures var s, s' := Run(steps + [e] + more), Run(steps + [e] + more + [Joining(c, secret)]);
            && e.r in s'.hub.node.rooms && c in s'.clients
            && (s'.clients[c].phase.Serving? <==> (e.useSecret ==> secret == e.secret))
            && (s'.clients[c].phase.Serving? ==> s'.clients[c].phase.room == e.r && c in s'.hub.node.rooms[e.r].conns)
            && (!s'.clients[c].phase.Serving? ==> s'.clients[c].phase.Connecting? && s'.hub.node.rooms == s.hub.node.rooms)
  {
    var s := Run(steps + [e] + more);
    CreatedRoom(steps, e);
    RunKept(steps + [e], more);
    RunInv(steps + [e] + more);
    RunSnoc(steps + [e] + more, Joining(c, secret));
    assert RoomKept(Run(steps + [e]).hub.node.rooms[e.r], s.hub.node.rooms[e.r]);
    assert MappedInv(s, e.id);
    hide Run, Kept;
    JoinOutcome(s, c, secret);
  }

  lemma JoinOutcome<R, S>(s: State<R, S>, c: Id, secret: string)
    requires Inv(s) && c in s.clients && s.clients[c].phase.Started? && s.clients[c].target in s.hub.mapped
    ensures var s', r := Apply(s, Joining(c, secret)), s.hub.mapped[s.clients[c].target];
            var x := s.hub.node.rooms[r];
            && r in s'.hub.node.rooms && c in s'.clients
            && (s'.clients[c].phase.Serving? <==> (x.useSecret ==> x.secret == secret))
            && (s'.clients[c].phase.Serving? ==> s'.clients[c].phase.room == r && c in s'.hub.node.rooms[r].conns)
            && (!s'.clients[c].phase.Serving? ==> s'.clients[c].phase.Connecting? && s'.hub.node.rooms == s.hub.node.rooms)
  {
    var id, r := s.clients[c].target, s.hub.mapped[s.clients[c].target];
    assert MappedInv(s, id);
    NotListed(s, c);
    JoinStep(s, c, secret);
    hide RoomInv, MemberInv, ClientInv, MappedInv, OrderInv, ListOk, SessionOk, RoomOk, RoomJoin, HearsRoom, Hears, Apply;
    if Joins(s.hub, id, secret) {
      JoinEffect(s.hub.node, r, c, secret, s.now);
      hide Inv, Tidy;
      Listed(s.hub.node, RoomJoin(s.hub.node, r, c, id, secret, s.now), r, c, s.now);
    }
  }

  lemma JoinStep<R, S>(s: State<R, S>, c: Id, secret: string)
    requires HubWired(s.hub) && c in s.clients && s.clients[c].phase.Started? && s.clients[c].target in s.hub.mapped
    ensures var s', id := Apply(s, Joining(c, secret)), s.clients[c].target;
            && c in s'.clients
            && (if Joins(s.hub, id, secret)
                then && s'.hub.node == RoomJoin(s.hub.node, s.hub.mapped[id], c, id, secret, s.now)
                     && s'.clients[c].phase == Serving(s.clients[c].phase.sess, s.hub.mapped[id])
                else s'.hub.node.rooms == s.hub.node.rooms && s'.clients[c].phase.Connecting?)
  {
    hide SendMessage;
  }

  lemma Listed<R, S>(n: Node<R, S>, n': Node<R, S>, r: R, c: Id, now: int)
    requires r in n.rooms
    requires Sends(n, n', r, n.rooms[r].(conns := n.rooms[r].conns + [c], activeAt := now, status := Running), n.rooms[r].conns + [c], Join(c))
    ensures r in n'.rooms && c in n'.rooms[r].conns
  {
  }

  // ---- sessions ----

  /** A session starts open and empty, under its own connection, for the room the connection asked for. */
  lemma StartedSession<R, S>(steps: seq<Step<R, S>>, c: Id, t: S)
    requires Enabled(Run(steps), Register(c, t))
    ensures var s, s' := Run(steps), Run(steps + [Register(c, t)]);
            && t in s'.hub.node.sess && c in s'.clients && s'.clients[c].phase == Started(t)
            && s'.hub.node.sess[t].conn == c && s'.hub.node.sess[t].target == s.clients[c].target
            && s'.hub.node.sess[t].inbox.placed == [] && Listening(s'.hub.node, t, c)
            && s'.hub.node.rooms == s.hub.node.rooms
            && (forall u :: u in s.hub.node.sess ==> u in s'.hub.node.sess && s'.hub.node.sess[u] == s.hub.node.sess[u])
  {
    RunSnoc(steps, Register(c, t));
    hide Run;
  }
}
