/** Clocks: how long a room can stay mapped, and the grace a room gets after its last member left. */
module Reaping {
  import opened Messages
  import opened Nodes
  import opened Consistency
  import opened RoomEffects
  import opened Monotone
  import opened Cluster
  import opened Invariant
  import opened Notices
  import opened Preservation
  import opened History

  /** What one step other than a sweep may do to a room: leave clock, members and status alone,
      refresh the clock to now, or close it, by request or on a verdict passed as a member leaves. */
  ghost predicate Moves<R, S>(s: State<R, S>, e: Step<R, S>, x: Room, x': Room) {
    && x'.address == x.address && x'.createdAt == x.createdAt && x'.useSecret == x.useSecret && x'.secret == x.secret
    && (|| (x'.activeAt == x.activeAt && x'.conns == x.conns && x'.status == x.status)
        || x'.activeAt == s.now
        || x'.status == Closed)
    && (x.status == Running && x'.status != Running ==>
          x'.status == Closed && (e == Remove(x.address) || (e.Departing? && Verdict(Left(x, e.c, s.now), s.now).Some?)))
  }

  lemma HeardMoves<R, S>(s: State<R, S>, e: Step<R, S>, x: Room, x1: Room, x2: Room)
    requires Moves(s, e, x, x1) && HeardOnly(x1, x2)
    ensures Moves(s, e, x, x2)
  {
  }

  lemma SameMoves<R, S>(s: State<R, S>, e: Step<R, S>, x: Room)
    ensures Moves(s, e, x, x)
  {
  }

  lemma JoinMoves<R, S>(s: State<R, S>, c: Id, secret: string, q: R)
    requires Inv(s) && c in s.clients && s.clients[c].phase.Started? && q in s.hub.node.rooms
    ensures var n' := JoinRoom(s.hub, s.clients[c].target, c, secret, s.now).node;
            q in n'.rooms && Moves(s, Joining(c, secret), s.hub.node.rooms[q], n'.rooms[q])
  {
    hide RoomInv, MemberInv, OrderInv, ListOk, SessionOk, RoomOk, Hears, HearsRoom, RoomJoin;
    var id := s.clients[c].target;
    if Joins(s.hub, id, secret) {
      NotListed(s, c);
      assert ClientInv(s, c);
      var r := s.hub.mapped[id];
      var x := s.hub.node.rooms[r];
      JoinEffect(s.hub.node, r, c, secret, s.now);
      HearsRoomOnly(if q == r then x.(conns := x.conns + [c], activeAt := s.now, status := Running) else s.hub.node.rooms[q],
                    x.conns + [c], Message.Join(c), s.hub.node.down);
    } else {
      NoJoin(s, c, secret);
    }
  }

  lemma NoJoin<R, S>(s: State<R, S>, c: Id, secret: string)
    requires HubWired(s.hub) && c in s.clients && !Joins(s.hub, s.clients[c].target, secret)
    ensures JoinRoom(s.hub, s.clients[c].target, c, secret, s.now) == s.hub
  {
  }

  lemma LeaveMoves<R, S>(s: State<R, S>, c: Id, q: R)
    requires Inv(s) && c in s.clients && q in s.hub.node.rooms
    ensures var n' := LeaveRoom(s.hub, s.clients[c].target, c, s.now).node;
            q in n'.rooms && Moves(s, Departing(c), s.hub.node.rooms[q], n'.rooms[q])
  {
    hide RoomInv, MemberInv, ClientInv, OrderInv, ListOk, SessionOk, RoomOk, LeaveRoom;
    var id := s.clients[c].target;
    if id in s.hub.mapped {
      assert MappedInv(s, id);
      LeaveRoomKeeps(s, id, c);
      var r := s.hub.mapped[id];
      var y := if q == r then Swept(Left(s.hub.node.rooms[r], c, s.now), s.now) else s.hub.node.rooms[q];
      assert HeardOnly(y, LeaveRoom(s.hub, id, c, s.now).node.rooms[q]);
    } else {
      NoLeave(s, id, c);
    }
  }

  lemma RemoveMoves<R, S>(s: State<R, S>, id: Id, q: R)
    requires Inv(s) && q in s.hub.node.rooms
    ensures var n' := RemoveRoom(s.hub, id, s.now).node;
            q in n'.rooms && Moves(s, Remove(id), s.hub.node.rooms[q], n'.rooms[q])
  {
    hide RoomInv, MemberInv, ClientInv, OrderInv, ListOk, SessionOk, RoomOk, RoomClose;
    if id in s.hub.mapped {
      assert MappedInv(s, id);
      var r := s.hub.mapped[id];
      ShutKeeps(s, r);
      var y := if q == r then s.hub.node.rooms[r].(status := Closed, closes := 1, activeAt := s.now) else s.hub.node.rooms[q];
      assert HeardOnly(y, Shut(s.hub, r, s.now).node.rooms[q]);
    }
  }

  lemma EmitMoves<R, S>(s: State<R, S>, e: Step<R, S>, a: Id, m: Message, q: R)
    requires Inv(s) && q in s.hub.node.rooms
    ensures var n' := Emit(s.hub.node, a, m);
            q in n'.rooms && Moves(s, e, s.hub.node.rooms[q], n'.rooms[q])
  {
    hide RoomInv, MemberInv, ClientInv, MappedInv, OrderInv, ListOk, SessionOk, RoomOk, Moves;
    EmitGrowsRoom(s, a, m, q);
    SameMoves(s, e, s.hub.node.rooms[q]);
    HeardMoves(s, e, s.hub.node.rooms[q], s.hub.node.rooms[q], DoEmit(s, a, m).hub.node.rooms[q]);
  }

  lemma CreateMoves<R, S>(s: State<R, S>, r: R, id: Id, useSecret: bool, secret: string, full: bool, q: R)
    requires Inv(s) && r !in s.hub.node.rooms && q in s.hub.node.rooms
    ensures var n' := DoCreate(s, r, id, useSecret, secret, full).hub.node;
            q in n'.rooms && n'.rooms[q] == s.hub.node.rooms[q]
  {
    hide RoomInv, MemberInv, ClientInv, MappedInv, OrderInv, ListOk, SessionOk, RoomOk;
    if Creates(s.hub, full, id, useSecret, secret) {
      CreateEffect(s.hub, full, r, id, useSecret, secret, s.now);
    }
  }

  lemma BeginMoves<R, S>(s: State<R, S>, r: R, q: R)
    requires Inv(s) && CanBegin(s, r) && q in s.hub.node.rooms
    ensures var n' := DoBegin(s, r).hub.node;
            q in n'.rooms && Moves(s, Begin(r), s.hub.node.rooms[q], n'.rooms[q])
  {
  }

  lemma DeliverMoves<R, S>(s: State<R, S>, r: R, q: R)
    requires Inv(s) && CanDeliver(s, r) && q in s.hub.node.rooms
    ensures var n' := DoDeliver(s, r).hub.node;
            q in n'.rooms && Moves(s, Deliver(r), s.hub.node.rooms[q], n'.rooms[q])
  {
    hide RoomInv, MemberInv, ClientInv, MappedInv, OrderInv, Tidy, Moves, Noted, Emit;
    DeliverRoom(s, r, q);
    SameMoves(s, Deliver(r), s.hub.node.rooms[q]);
    HeardMoves(s, Deliver(r), s.hub.node.rooms[q], s.hub.node.rooms[q], DoDeliver(s, r).hub.node.rooms[q]);
  }

  lemma StepMoves<R, S>(s: State<R, S>, e: Step<R, S>, q: R)
    requires Inv(s) && Enabled(s, e) && !e.Sweeping? && q in s.hub.node.rooms
    ensures q in Apply(s, e).hub.node.rooms && Moves(s, e, s.hub.node.rooms[q], Apply(s, e).hub.node.rooms[q])
  {
    hide RoomInv, MemberInv, ClientInv, MappedInv, OrderInv, ListOk, SessionOk, RoomOk, Moves;
    hide Emit, RoomClose, LeaveRoom, JoinRoom, CreateRoom, StartSession, CloseSession, Noted;
    var x := s.hub.node.rooms[q];
    SameMoves(s, e, x);
    match e
    case Create(r, id, useSecret, secret, full) => CreateMoves(s, r, id, useSecret, secret, full, q);
    case Remove(id) => RemoveMoves(s, id, q);
    case Joining(c, secret) => JoinMoves(s, c, secret, q);
    case Departing(c) => LeaveMoves(s, c, q);
    case SendAll(c, data, includeSelf) => EmitMoves(s, e, s.clients[c].target, Broadcast(data, c, includeSelf), q);
    case SendOne(c, data, to) => EmitMoves(s, e, to, Unicast(data, c, Some(to)), q);
    case Begin(r) => BeginMoves(s, r, q);
    case Deliver(r) => DeliverMoves(s, r, q);
    case Register(c, t) => RegisterRooms(s, c, t);
    case EndSession(c) => EndRooms(s, c);
    case _ =>
  }

  lemma RegisterRooms<R, S>(s: State<R, S>, c: Id, t: S)
    requires HubWired(s.hub) && c in s.clients
    ensures DoRegister(s, c, t).hub.node.rooms == s.hub.node.rooms
  {
  }

  lemma EndRooms<R, S>(s: State<R, S>, c: Id)
    requires HubWired(s.hub) && c in s.clients && s.clients[c].phase.Leaving? && s.clients[c].phase.sess in s.hub.node.sess
    ensures DoEnd(s, c).hub.node.rooms == s.hub.node.rooms
  {
  }

  // ---- the reaping bound ----

  /** An open room measured against the last sweep. */
  predicate Fresh(x: Room, now: int, swept: int) {
    && x.createdAt <= x.activeAt <= now
    && swept - x.createdAt <= HOUR
    && (x.conns == [] ==> swept - x.activeAt <= MINUTE)
    && (x.status == Running ==> swept - x.activeAt <= 5 * MINUTE)
  }

  ghost predicate Timely<R, S>(s: State<R, S>) {
    && s.swept <= s.now
    && forall r {:trigger s.hub.node.rooms[r]} :: r in s.hub.node.rooms && s.hub.node.rooms[r].status != Closed ==>
         Fresh(s.hub.node.rooms[r], s.now, s.swept)
  }

  lemma SweepTimely<R, S>(s: State<R, S>, order: seq<R>)
    requires Inv(s) && Timely(s) && Enumerates(s.hub, order)
    ensures Timely(DoSweep(s, order))
  {
    hide MemberInv, ClientInv, OrderInv, MappedInv, Tidy, Sweep;
    var s' := DoSweep(s, order);
    OrderOpen(s, order);
    SweepGrows(s.hub, order, s.now);
    forall r | r in s'.hub.node.rooms && s'.hub.node.rooms[r].status != Closed
      ensures Fresh(s'.hub.node.rooms[r], s'.now, s'.swept)
    {
      assert r in s.hub.node.rooms;
      SweepEffect(s, order, r);
      assert RoomInv(s, r);
      var x, x' := s.hub.node.rooms[r], s'.hub.node.rooms[r];
      assert HeardOnly(if r in order then Swept(x, s.now) else x, x');
    }
  }

  lemma CreateTimely<R, S>(s: State<R, S>, r: R, id: Id, useSecret: bool, secret: string, full: bool)
    requires Inv(s) && Timely(s) && r !in s.hub.node.rooms
    ensures Timely(DoCreate(s, r, id, useSecret, secret, full))
  {
    if Creates(s.hub, full, id, useSecret, secret) {
      CreateEffect(s.hub, full, r, id, useSecret, secret, s.now);
    }
  }

  lemma OldRooms<R, S>(s: State<R, S>, e: Step<R, S>)
    requires Inv(s) && Enabled(s, e) && !e.Sweeping? && !e.Create?
    ensures Apply(s, e).hub.node.rooms.Keys == s.hub.node.rooms.Keys
    ensures Apply(s, e).swept == s.swept && Apply(s, e).now >= s.now
  {
  }

  lemma StepTimely<R, S>(s: State<R, S>, e: Step<R, S>)
    requires Inv(s) && Timely(s)
    ensures Timely(Apply(s, e))
  {
    if Enabled(s, e) {
      if e.Sweeping? { SweepTimely(s, e.order); }
      else if e.Create? { CreateTimely(s, e.r, e.id, e.useSecret, e.secret, e.full); }
      else {
        var s' := Apply(s, e);
        OldRooms(s, e);
        forall r | r in s'.hub.node.rooms && s'.hub.node.rooms[r].status != Closed
          ensures Fresh(s'.hub.node.rooms[r], s'.now, s'.swept)
        {
          StepMoves(s, e, r);
          StepKept(s, e);
          assert RoomKept(s.hub.node.rooms[r], s'.hub.node.rooms[r]);
        }
      }
    }
  }

  lemma {:induction false} RunTimely<R, S>(steps: seq<Step<R, S>>)
    ensures Timely(Run(steps))
    decreases |steps|
  {
    if steps == [] {
    } else {
      RunTimely(steps[..|steps| - 1]);
      RunInv(steps[..|steps| - 1]);
      StepTimely(Run(steps[..|steps| - 1]), steps[|steps| - 1]);
    }
  }

  /** In every run and at any time, no mapped room is older than an hour plus the time since the last
      sweep, no empty one has been idle for more than a minute plus that, and no running one for more
      than five minutes plus that. */
  lemma ReapingBound<R, S>(steps: seq<Step<R, S>>, id: Id)
    requires id in Run(steps).hub.mapped
    ensures var s := Run(steps);
            var x := s.hub.node.rooms[s.hub.mapped[id]];
            var gap := s.now - s.swept;
            && s.now - x.createdAt <= HOUR + gap
            && (x.conns == [] ==> s.now - x.activeAt <= MINUTE + gap)
            && (x.status == Running ==> s.now - x.activeAt <= 5 * MINUTE + gap)
  {
    RunInv(steps);
    RunTimely(steps);
    assert MappedInv(Run(steps), id);
  }

  // ---- the grace after the last leave ----

  /** Room `r` is running and was active at `since` or later. */
  ghost predicate Active<R, S>(s: State<R, S>, r: R, since: int) {
    r in s.hub.node.rooms && s.hub.node.rooms[r].status == Running && since <= s.hub.node.rooms[r].activeAt <= s.now
  }

  lemma SweepActive<R, S>(s: State<R, S>, order: seq<R>, r: R, since: int)
    requires Inv(s) && Active(s, r, since) && since <= s.now <= since + MINUTE && Enumerates(s.hub, order)
    requires s.now - s.hub.node.rooms[r].createdAt <= HOUR
    ensures Active(DoSweep(s, order), r, since)
  {
    hide RoomInv, MemberInv, ClientInv, MappedInv, OrderInv, ListOk, SessionOk, RoomOk, Sweep;
    OrderOpen(s, order);
    SweepEffect(s, order, r);
    assert Verdict(s.hub.node.rooms[r], s.now) == None;
  }

  lemma MoveActive<R, S>(s: State<R, S>, e: Step<R, S>, x: Room, x': Room, since: int)
    requires Moves(s, e, x, x') && x.status == Running && StatusMove(x.status, x'.status)
    requires since <= x.activeAt <= s.now <= since + MINUTE && s.now - x.createdAt <= HOUR && e != Remove(x.address)
    ensures x'.status == Running && since <= x'.activeAt <= s.now
  {
  }

  lemma StepActive<R, S>(s: State<R, S>, e: Step<R, S>, r: R, since: int)
    requires Inv(s) && Active(s, r, since) && since <= s.now <= since + MINUTE
    requires s.now - s.hub.node.rooms[r].createdAt <= HOUR
    requires e != Remove(s.hub.node.rooms[r].address)
    ensures Active(Apply(s, e), r, since)
  {
    TimeForward(s, e);
    if Enabled(s, e) {
      if e.Sweeping? {
        SweepActive(s, e.order, r, since);
      } else {
        StepMoves(s, e, r);
        StepKept(s, e);
        var x, x' := s.hub.node.rooms[r], Apply(s, e).hub.node.rooms[r];
        assert RoomKept(x, x');
        MoveActive(s, e, x, x', since);
      }
    }
  }

  lemma {:induction false} RunActive<R, S>(steps: seq<Step<R, S>>, more: seq<Step<R, S>>, r: R, since: int)
    requires Active(Run(steps), r, since) && since <= Run(steps).now
    requires forall e :: e in more ==> e != Remove(Run(steps).hub.node.rooms[r].address)
    requires Run(steps + more).now <= since + MINUTE
    requires Run(steps + more).now - Run(steps).hub.node.rooms[r].createdAt <= HOUR
    ensures Active(Run(steps + more), r, since)
    decreases |more|
  {
    if more == [] {
      assert steps + more == steps;
    } else {
      var n := |more| - 1;
      RunLast(steps, more);
      var s := Run(steps + more[..n]);
      RunInv(steps + more[..n]);
      TimeForward(s, more[n]);
      assert more[n] in more;
      assert forall e :: e in more[..n] ==> e in more;
      hide Run, Apply, Inv, Active;
      RunActive(steps, more[..n], r, since);
      RunKept(steps, more[..n]);
      assert RoomKept(Run(steps).hub.node.rooms[r], s.hub.node.rooms[r]);
      TimeForwardRun(steps, more[..n]);
      StepActive(s, more[n], r, since);
    }
  }

  lemma TimeForward<R, S>(s: State<R, S>, e: Step<R, S>)
    requires HubWired(s.hub)
    ensures Apply(s, e).now >= s.now
  {
  }

  lemma {:induction false} TimeForwardRun<R, S>(steps: seq<Step<R, S>>, more: seq<Step<R, S>>)
    ensures Run(steps + more).now >= Run(steps).now
    decreases |more|
  {
    if more == [] {
      assert steps + more == steps;
    } else {
      var n := |more| - 1;
      assert (steps + more)[..|steps + more| - 1] == steps + more[..n];
      TimeForwardRun(steps, more[..n]);
      TimeForward(Run(steps + more[..n]), more[n]);
    }
  }

  /** A running room at most an hour old that a leave empties survives that call and every sweep of
      the next minute while it is still at most an hour old, and stays joinable, unless it is removed
      explicitly: leaving refreshes the activity clock. */
  lemma GraceAfterLeave<R, S>(steps: seq<Step<R, S>>, c: Id, r: R, more: seq<Step<R, S>>)
    requires var s := Run(steps);
             && c in s.clients && s.clients[c].phase.Serving?
             && s.clients[c].target in s.hub.mapped && s.hub.mapped[s.clients[c].target] == r
             && r in s.hub.node.rooms && s.hub.node.rooms[r].status == Running
             && Without(s.hub.node.rooms[r].conns, c) == []
    requires forall e :: e in more ==> e != Remove(Run(steps).clients[c].target)
    requires Run(steps + [Departing(c)] + more).now <= Run(steps).now + MINUTE
    requires Run(steps + [Departing(c)] + more).now - Run(steps).hub.node.rooms[r].createdAt <= HOUR
    ensures var id := Run(steps).clients[c].target;
            var s2 := Run(steps + [Departing(c)] + more);
            && id in s2.hub.mapped && s2.hub.mapped[id] == r
            && s2.hub.node.rooms[r].status == Running
            && (forall secret :: Joins(s2.hub, id, secret) <==>
                  (s2.hub.node.rooms[r].useSecret ==> s2.hub.node.rooms[r].secret == secret))
  {
    var s, id := Run(steps), Run(steps).clients[c].target;
    RunInv(steps);
    assert MappedInv(s, id);
    assert Run(steps + [Departing(c)]) == Apply(s, Departing(c)) by {
      assert (steps + [Departing(c)])[..|steps + [Departing(c)]| - 1] == steps;
    }
    TimeForwardRun(steps + [Departing(c)], more);
    LeaveActive(s, c, r);
    RunActive(steps + [Departing(c)], more, r, s.now);
    var s2 := Run(steps + [Departing(c)] + more);
    RunKept(steps + [Departing(c)], more);
    assert RoomKept(Run(steps + [Departing(c)]).hub.node.rooms[r], s2.hub.node.rooms[r]);
    RunInv(steps + [Departing(c)] + more);
    assert RoomInv(s2, r);
  }

  lemma LeaveActive<R, S>(s: State<R, S>, c: Id, r: R)
    requires Inv(s) && c in s.clients && s.clients[c].phase.Serving?
    requires s.clients[c].target in s.hub.mapped && s.hub.mapped[s.clients[c].target] == r
    requires s.hub.node.rooms[r].status == Running && s.now - s.hub.node.rooms[r].createdAt <= HOUR
    ensures Active(Apply(s, Departing(c)), r, s.now) && Apply(s, Departing(c)).now == s.now
    ensures var x := Apply(s, Departing(c)).hub.node.rooms[r];
            x.address == s.clients[c].target && x.createdAt == s.hub.node.rooms[r].createdAt
  {
    hide RoomInv, MemberInv, ClientInv, OrderInv, Tidy, LeaveRoom;
    assert MappedInv(s, s.clients[c].target);
    LeaveRoomKeeps(s, s.clients[c].target, c);
    assert HeardOnly(Swept(Left(s.hub.node.rooms[r], c, s.now), s.now), Apply(s, Departing(c)).hub.node.rooms[r]);
  }
}
