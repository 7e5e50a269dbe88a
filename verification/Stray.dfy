/** Close messages that end up in a room that stays open. */
module Stray {
  import opened Messages
  import opened Nodes
  import opened Consistency
  import opened Cluster
  import opened Invariant
  import opened Notices
  import opened Preservation
  import opened Told
  import opened History
  import opened Membership
  import opened Ordering
  import opened Aliasing

  // A room made under the id of a connection hears what that connection is told. When the room the
  // connection is a member of closes, whichever way, the other room finds a close message in its inbox
  // and hands it to its own members.

  // ---- what a room hears ----

  ghost predicate GotClose(x: Room, x': Room) {
    exists i :: |x.inbox.placed| <= i < |x'.inbox.placed| && x'.inbox.placed[i].Close?
  }

  lemma {:induction false} NoneGot(x: Room, ms: seq<Message>, down: set<Id>)
    requires forall m :: m in ms ==> !m.Close?
    ensures !GotClose(x, RoomAfter(x, ms, down))
    decreases |ms|
  {
    if ms == [] {
    } else {
      var x1 := HearsRoom(x, [x.address], ms[0], down);
      assert ms[0] in ms;
      NoneGot(x1, ms[1..], down);
      RoomAfterBoth(x1, ms[1..], [], down);
      assert ms[1..] + [] == ms[1..];
      var x2 := RoomAfter(x, ms, down);
      forall i | |x.inbox.placed| <= i < |x2.inbox.placed| ensures !x2.inbox.placed[i].Close? {
        if i < |x1.inbox.placed| { assert x2.inbox.placed[i] == x1.inbox.placed[i]; }
      }
    }
  }

  /** An open room has space for `k` more messages and can be reached. */
  predicate RoomFor(x: Room, k: nat, down: set<Id>) {
    x.address !in down && |x.inbox.placed| - x.inbox.taken + k <= 2000
  }

  lemma OneGot(x: Room, m: Message, down: set<Id>)
    requires x.status != Closed && m.Close?
    ensures GotClose(x, RoomAfter(x, [m], down)) <==> RoomFor(x, 1, down)
    ensures RoomFor(x, 1, down) ==> RoomAfter(x, [m], down).inbox.placed == x.inbox.placed + [m]
  {
    HearsRoomTo(x, [x.address], m, down);
    assert To([x.address], m, x.address) == [m];
    var x' := HearsRoom(x, [x.address], m, down);
    if RoomFor(x, 1, down) { assert x'.inbox.placed[|x.inbox.placed|] == m; }
  }

  lemma TwoGot(x: Room, l: Message, m: Message, down: set<Id>)
    requires x.status != Closed && m.Close? && !l.Close?
    ensures GotClose(x, RoomAfter(x, [l, m], down)) <==> RoomFor(x, 2, down)
  {
    var x1 := HearsRoom(x, [x.address], l, down);
    assert [l, m][0] == l && [l, m][1..] == [m];
    assert RoomAfter(x, [l, m], down) == RoomAfter(x1, [m], down);
    OneGot(x1, m, down);
    HearsRoomTo(x1, [x.address], m, down);
    assert To([x.address], m, x.address) == [m];
    var x2 := RoomAfter(x, [l, m], down);
    if RoomFor(x, 2, down) { assert x2.inbox.placed[|x.inbox.placed| + 1] == m; }
  }

  // ---- where a stray close message comes from ----

  /** The step closes another room `q`, which has room `a`'s address among the members that stay, and the
      farewell fits into `a`'s inbox. */
  ghost predicate StrayFrom<R, S>(s: State<R, S>, e: Step<R, S>, q: R, a: R)
    requires HubWired(s.hub) && a in s.hub.node.rooms
  {
    var x := s.hub.node.rooms[a];
    && q != a && WillClose(s, e, q)
    && x.address in s.hub.node.rooms[q].conns && (e.Departing? ==> x.address != e.c)
    && RoomFor(x, |Farewell(s, e, q)|, s.hub.node.down)
  }

  /** The step hands on a close message to room `a`'s address. */
  ghost predicate StrayFurther<R, S>(s: State<R, S>, e: Step<R, S>, a: R)
    requires HubWired(s.hub) && a in s.hub.node.rooms
  {
    var x := s.hub.node.rooms[a];
    && e.Deliver? && CanDeliver(s, e.r) && Current(s.hub.node, e.r).Close? && s.work[e.r][0] == x.address
    && RoomFor(x, 1, s.hub.node.down)
  }

  /** No step that closes no room of which `a` is a member that stays, and hands on nothing, tells `a` to close. */
  lemma NoCloseWords<R, S>(s: State<R, S>, e: Step<R, S>, a: Id)
    requires HubWired(s.hub) && Enabled(s, e) && !e.Deliver?
    requires forall q :: q in s.hub.node.rooms && WillClose(s, e, q) ==>
               a !in s.hub.node.rooms[q].conns || (e.Departing? && a == e.c)
    ensures forall m :: m in Words(s, e, a) ==> !m.Close?
  {
    hide Verdict;
    if e.Sweeping? {
      OrderMapped(s, e.order);
      forall q | q in e.order && Verdict(s.hub.node.rooms[q], s.now).Some? ensures a !in s.hub.node.rooms[q].conns {
        assert WillClose(s, e, q);
      }
      SweepWordsNone(s.hub.node.rooms, e.order, s.now, a);
    } else if e.Remove? && e.id in s.hub.mapped {
      assert WillClose(s, e, s.hub.mapped[e.id]);
    } else if e.Departing? && s.clients[e.c].target in s.hub.mapped {
      var q := s.hub.mapped[s.clients[e.c].target];
      if Verdict(Left(s.hub.node.rooms[q], e.c, s.now), s.now).Some? { assert WillClose(s, e, q); }
    }
  }

  lemma OpenBefore<R, S>(s: State<R, S>, e: Step<R, S>, a: R)
    requires Inv(s) && a in s.hub.node.rooms
    requires a in Apply(s, e).hub.node.rooms && Apply(s, e).hub.node.rooms[a].status != Closed
    ensures s.hub.node.rooms[a].status != Closed && !WillClose(s, e, a)
  {
    StepKept(s, e);
    assert RoomKept(s.hub.node.rooms[a], Apply(s, e).hub.node.rooms[a]);
    if WillClose(s, e, a) { StepShuts(s, e, a); }
  }

  lemma FarewellGot<R, S>(s: State<R, S>, e: Step<R, S>, q: R, a: R)
    requires HubWired(s.hub) && q in s.hub.node.rooms && WillClose(s, e, q) && a in s.hub.node.rooms && s.hub.node.rooms[a].status != Closed
    ensures var x, ms := s.hub.node.rooms[a], Farewell(s, e, q);
            GotClose(x, RoomAfter(x, ms, s.hub.node.down)) <==> RoomFor(x, |ms|, s.hub.node.down)
  {
    hide GotClose, RoomFor, RoomAfter, Verdict;
    var x, ms := s.hub.node.rooms[a], Farewell(s, e, q);
    if |ms| == 1 {
      OneGot(x, ms[0], s.hub.node.down);
      assert ms == [ms[0]];
    } else {
      TwoGot(x, ms[0], ms[1], s.hub.node.down);
      assert ms == [ms[0], ms[1]];
    }
  }

  lemma SameGot(x: Room, y: Room, z: Room)
    requires y.inbox.placed == z.inbox.placed
    ensures GotClose(x, y) <==> GotClose(x, z)
  {
  }

  lemma NothingGot<R, S>(s: State<R, S>, e: Step<R, S>, a: R)
    requires HubWired(s.hub) && a in s.hub.node.rooms && (!Enabled(s, e) || e.Take? || e.EndSession?)
    ensures a in Apply(s, e).hub.node.rooms && Apply(s, e).hub.node.rooms[a] == s.hub.node.rooms[a]
  {
  }

  /** The exact condition, checkable before each step: a room that stays open gets a close message exactly
      when the step closes another room that has its address among the members that stay, on request, by a
      sweep or after a leave, or hands on a close message to its address; and its inbox has the space. */
  lemma StrayCloseIff<R, S>(s: State<R, S>, e: Step<R, S>, a: R)
    requires Inv(s) && a in s.hub.node.rooms
    requires a in Apply(s, e).hub.node.rooms && Apply(s, e).hub.node.rooms[a].status != Closed
    ensures GotClose(s.hub.node.rooms[a], Apply(s, e).hub.node.rooms[a])
       <==> (exists q :: q in s.hub.node.rooms && StrayFrom(s, e, q, a)) || StrayFurther(s, e, a)
  {
    var x, x' := s.hub.node.rooms[a], Apply(s, e).hub.node.rooms[a];
    OpenBefore(s, e, a);
    assert HubWired(s.hub);
    if !Enabled(s, e) || e.Take? || e.EndSession? {
      NothingGot(s, e, a);
    } else {
      StepTold(s, e);
      hide Inv, Apply, Verdict, GotClose, RoomAfter, Words;
      SameGot(x, x', RoomAfter(x, Words(s, e, x.address), s.hub.node.down));
      hide HeardBy, Enabled, WillClose, StrayFrom, StrayFurther;
      if e.Deliver? {
        HandedGot(s, e, a);
        NoneCloses(s, e, a);
      } else {
        ClosingGot(s, e, a);
      }
    }
  }

  lemma NoneCloses<R, S>(s: State<R, S>, e: Step<R, S>, a: R)
    requires HubWired(s.hub) && a in s.hub.node.rooms && e.Deliver?
    ensures !exists q :: q in s.hub.node.rooms && StrayFrom(s, e, q, a)
  {
  }

  lemma ClosingGot<R, S>(s: State<R, S>, e: Step<R, S>, a: R)
    requires Inv(s) && Enabled(s, e) && !e.Deliver? && a in s.hub.node.rooms && s.hub.node.rooms[a].status != Closed
    requires !WillClose(s, e, a)
    ensures var x := s.hub.node.rooms[a];
            GotClose(x, RoomAfter(x, Words(s, e, x.address), s.hub.node.down))
            <==> (exists q :: q in s.hub.node.rooms && StrayFrom(s, e, q, a)) || StrayFurther(s, e, a)
  {
    var x := s.hub.node.rooms[a];
    assert HubWired(s.hub);
    hide Inv, Verdict, GotClose, RoomAfter, Words, Enabled, WillClose, RoomFor, Farewell;
    if q :| q in s.hub.node.rooms && WillClose(s, e, q) && x.address in s.hub.node.rooms[q].conns && (e.Departing? ==> x.address != e.c) {
      FarewellWords(s, e, q, x.address);
      FarewellGot(s, e, q, a);
      StrayOne(s, e, q, a);
      assert StrayFrom(s, e, q, a) <==> RoomFor(x, |Farewell(s, e, q)|, s.hub.node.down);
    } else {
      NoCloseWords(s, e, x.address);
      NoneGot(x, Words(s, e, x.address), s.hub.node.down);
    }
  }

  lemma HandedGot<R, S>(s: State<R, S>, e: Step<R, S>, a: R)
    requires HubWired(s.hub) && a in s.hub.node.rooms && s.hub.node.rooms[a].status != Closed && Enabled(s, e) && e.Deliver?
    ensures var x := s.hub.node.rooms[a];
            GotClose(x, RoomAfter(x, Words(s, e, x.address), s.hub.node.down)) <==> StrayFurther(s, e, a)
  {
    var x, m := s.hub.node.rooms[a], Current(s.hub.node, e.r);
    hide GotClose, RoomAfter, RoomFor;
    if s.work[e.r][0] == x.address && m.Close? {
      OneGot(x, m, s.hub.node.down);
    } else {
      NoneGot(x, Words(s, e, x.address), s.hub.node.down);
    }
  }

  /** At most one closing room has the address among its members. */
  lemma StrayOne<R, S>(s: State<R, S>, e: Step<R, S>, q: R, a: R)
    requires Inv(s) && a in s.hub.node.rooms && q in s.hub.node.rooms && s.hub.node.rooms[a].address in s.hub.node.rooms[q].conns
    ensures forall p :: p in s.hub.node.rooms && StrayFrom(s, e, p, a) ==> p == q
  {
    assert HubWired(s.hub);
    hide Inv;
    forall p | p in s.hub.node.rooms && StrayFrom(s, e, p, a) ensures p == q {
      if p != q { OneRoom(s, q, p, s.hub.node.rooms[a].address); }
    }
  }

  // ---- a member that is shut out of an open room ----

  /** Room `a` is open and idle, and its first member `c` is served by the listening session `t`. */
  ghost predicate Idle<R, S>(s: State<R, S>, a: R, c: Id, t: S) {
    && a in s.hub.node.rooms && a in s.work && a in s.seen
    && var x := s.hub.node.rooms[a];
    && x.status != Closed && x.inbox.taken == |x.inbox.placed| && s.work[a] == [] && x.conns != [] && x.conns[0] == c
    && c in s.clients && s.clients[c].phase == Serving(t, a)
    && t in s.hub.node.sess && s.hub.node.sess[t].conn == c && Hearing(s.hub.node.sess[t], 1, s.hub.node.down)
  }

  /** A closing by sweep or on request changes nothing of another room but its inbox, and no phase. */
  lemma ClosingKeeps<R, S>(s: State<R, S>, e: Step<R, S>, q: R, a: R)
    requires Inv(s) && a in s.hub.node.rooms && WillClose(s, e, q) && !e.Departing? && q != a && !WillClose(s, e, a)
    ensures var s1 := Apply(s, e);
            && Inv(s1) && s1.clients == s.clients && s1.work == s.work && s1.seen == s.seen && s1.hub.node.down == s.hub.node.down
            && a in s1.hub.node.rooms && HeardOnly(s.hub.node.rooms[a], s1.hub.node.rooms[a])
  {
    StepKeeps(s, e);
    hide RoomInv, MemberInv, ClientInv, OrderInv, ListOk, SessionOk, RoomOk, RoomClose, Verdict;
    if e.Remove? {
      assert MappedInv(s, e.id);
      ShutKeeps(s, q);
    } else {
      OrderOpen(s, e.order);
      SweepEffect(s, e.order, a);
    }
  }

  /** Such a closing of room `q` queues its close message in room `a`, and leaves `a`'s members as they are. */
  lemma ClosingStrays<R, S>(s: State<R, S>, e: Step<R, S>, q: R, a: R, c: Id, t: S)
    requires Inv(s) && Idle(s, a, c, t) && q in s.hub.node.rooms && StrayFrom(s, e, q, a) && !e.Departing? && !WillClose(s, e, a)
    ensures var s1, x := Apply(s, e), s.hub.node.rooms[a];
            && Inv(s1) && s1.clients == s.clients && s1.work == s.work && s1.seen == s.seen && s1.hub.node.down == s.hub.node.down
            && a in s1.hub.node.rooms && HeardOnly(x, s1.hub.node.rooms[a])
            && s1.hub.node.rooms[a].inbox.placed == x.inbox.placed + Farewell(s, e, q)
            && t in s1.hub.node.sess && s1.hub.node.sess[t] == s.hub.node.sess[t]
  {
    var x := s.hub.node.rooms[a];
    ClosingKeeps(s, e, q, a);
    StepTold(s, e);
    FarewellWords(s, e, q, x.address);
    OneGot(x, Farewell(s, e, q)[0], s.hub.node.down);
    assert Farewell(s, e, q) == [Farewell(s, e, q)[0]];
    NothingSaid(s, e, a, c);
    hide Inv, Apply, Words, Farewell, Verdict;
  }

  lemma NothingSaid<R, S>(s: State<R, S>, e: Step<R, S>, a: R, c: Id)
    requires Inv(s) && Enabled(s, e) && (e.Remove? || e.Sweeping?) && a in s.hub.node.rooms && c in s.hub.node.rooms[a].conns
    requires !WillClose(s, e, a)
    ensures Words(s, e, c) == []
  {
    assert HubWired(s.hub);
    forall q | q in s.hub.node.rooms && q != a ensures c !in s.hub.node.rooms[q].conns { OneRoom(s, a, q, c); }
    hide Inv, Verdict;
    if e.Sweeping? {
      OrderMapped(s, e.order);
      SweepWordsNone(s.hub.node.rooms, e.order, s.now, c);
    }
  }

  /** Client `c` is served, listed in the open room `a`, and its session `t` no longer listens. */
  ghost predicate Deaf<R, S>(s: State<R, S>, a: R, c: Id, t: S) {
    && a in s.hub.node.rooms && s.hub.node.rooms[a].status != Closed && c in s.hub.node.rooms[a].conns
    && c in s.clients && s.clients[c].phase == Serving(t, a) && !Listening(s.hub.node, t, c)
  }

  /** Room `a`'s next message is a close message, and its first member `c` is served by the listening session `t`. */
  ghost predicate Poised<R, S>(s: State<R, S>, a: R, c: Id, t: S) {
    && Enabled(s, Begin(a)) && s.hub.node.rooms[a].status != Closed
    && s.hub.node.rooms[a].inbox.placed[s.hub.node.rooms[a].inbox.taken].Close?
    && s.hub.node.rooms[a].conns != [] && s.hub.node.rooms[a].conns[0] == c
    && c in s.clients && s.clients[c].phase == Serving(t, a)
    && t in s.hub.node.sess && s.hub.node.sess[t].conn == c && Hearing(s.hub.node.sess[t], 1, s.hub.node.down)
  }

  /** Such a room hands the message to its first member and stays open. */
  lemma HandsClose<R, S>(s: State<R, S>, a: R, c: Id, t: S)
    requires Inv(s) && Poised(s, a, c, t)
    ensures Deaf(Apply(Apply(s, Begin(a)), Deliver(a)), a, c, t)
  {
    var s1 := Apply(s, Begin(a));
    StepKeeps(s, Begin(a));
    BeginStep(s, a);
    hide RoomInv, MemberInv, ClientInv, OrderInv, MappedInv, ListOk, SessionOk, RoomOk, Apply, Noted, Emit;
    DeliverStep(s1, a);
    DeliverEffect(s1, a);
    DeliverRoom(s1, a, a);
  }

  lemma BeginStep<R, S>(s: State<R, S>, a: R)
    requires HubWired(s.hub) && Enabled(s, Begin(a))
    ensures Apply(s, Begin(a)) == DoBegin(s, a)
  {
  }

  lemma DeliverStep<R, S>(s: State<R, S>, a: R)
    requires HubWired(s.hub) && CanDeliver(s, a)
    ensures Apply(s, Deliver(a)) == DoDeliver(s, a)
  {
    hide Emit, Noted;
  }

  /** Once the stray message has been handed on, a member of the open room is deaf. */
  lemma StrayCloseStrands<R, S>(s: State<R, S>, e: Step<R, S>, q: R, a: R, c: Id, t: S)
    requires Inv(s) && Idle(s, a, c, t) && q in s.hub.node.rooms && StrayFrom(s, e, q, a) && !e.Departing? && !WillClose(s, e, a)
    ensures Deaf(Apply(Apply(Apply(s, e), Begin(a)), Deliver(a)), a, c, t)
  {
    ClosingStrays(s, e, q, a, c, t);
    FarewellCloses(s, e, q);
    hide Inv, Apply, Verdict, WillClose, StrayFrom, Farewell, Poised, Deaf;
    StrayPoises(s, Apply(s, e), a, c, t, Farewell(s, e, q));
    HandsClose(Apply(s, e), a, c, t);
  }

  lemma StrayPoises<R, S>(s: State<R, S>, s1: State<R, S>, a: R, c: Id, t: S, ms: seq<Message>)
    requires Idle(s, a, c, t) && |ms| == 1 && ms[0].Close?
    requires s1.clients == s.clients && s1.work == s.work && s1.seen == s.seen && s1.hub.node.down == s.hub.node.down
    requires a in s1.hub.node.rooms && HeardOnly(s.hub.node.rooms[a], s1.hub.node.rooms[a])
    requires s1.hub.node.rooms[a].inbox.placed == s.hub.node.rooms[a].inbox.placed + ms
    requires t in s1.hub.node.sess && s1.hub.node.sess[t] == s.hub.node.sess[t]
    ensures Poised(s1, a, c, t)
  {
  }

  lemma FarewellCloses<R, S>(s: State<R, S>, e: Step<R, S>, q: R)
    requires HubWired(s.hub) && WillClose(s, e, q) && !e.Departing?
    ensures |Farewell(s, e, q)| == 1 && Farewell(s, e, q)[0].Close?
  {
    hide Verdict;
  }

  lemma ForcedIdle<R, S>(s: State<R, S>, s1: State<R, S>, v: Id, r: R, c: Id, t: S)
    requires CanForce(s, v, r, c, t) && ForcedInto(s, s1, v, r, c, t) && HubWired(s1.hub) && c !in s.hub.node.down
    ensures Idle(s1, r, c, t)
  {
  }

  /** A room just forced is not closed by what closes an older one. */
  lemma ForcedStays<R, S>(s: State<R, S>, s1: State<R, S>, v: Id, r: R, c: Id, t: S, e: Step<R, S>, q: R)
    requires CanForce(s, v, r, c, t) && ForcedInto(s, s1, v, r, c, t) && HubWired(s1.hub) && s1.now == s.now
    requires q in s.hub.node.rooms && WillClose(s1, e, q) && !e.Departing?
    requires v in s.hub.node.rooms[q].conns && v !in s.hub.node.down
    ensures !WillClose(s1, e, r) && q in s1.hub.node.rooms && StrayFrom(s1, e, q, r)
  {
    assert s1.hub.node.rooms[q] == s.hub.node.rooms[q] && s1.hub.node.rooms[r] == Alias(v, c, s.now);
  }

  /** From every run: a join forces a room under the id of a reachable member of room `q`; then `q` closes,
      by a sweep or on request. Once the forced room has handed on one message, the newcomer is served,
      listed in an open room, and deaf, though no leave call was lost. */
  lemma ForcedJoinStrands<R, S>(steps: seq<Step<R, S>>, q: R, v: Id, r: R, c: Id, t: S, e: Step<R, S>)
    requires CanForce(Run(steps), v, r, c, t) && v !in Run(steps).hub.node.down && c !in Run(steps).hub.node.down
    requires q in Run(steps).hub.node.rooms && v in Run(steps).hub.node.rooms[q].conns
    requires WillClose(Run(steps + ForcedSteps(v, r, c, t)), e, q) && !e.Departing?
    ensures Deaf(Run(steps + ForcedSteps(v, r, c, t) + [e] + [Begin(r)] + [Deliver(r)]), r, c, t)
  {
    var s, a := Run(steps), steps + ForcedSteps(v, r, c, t);
    RunInv(steps);
    RunForced(steps, v, r, c, t);
    ForcedEffect(s, v, r, c, t);
    var s1 := Run(a);
    ForcedNow(s, v, r, c, t);
    ForcedIdle(s, s1, v, r, c, t);
    ForcedStays(s, s1, v, r, c, t, e, q);
    hide Run, Apply, Forced, Inv, Idle, ForcedInto, CanForce, StrayFrom, WillClose, Deaf;
    StrayCloseStrands(s1, e, q, r, c, t);
    RunSnoc(a, e);
    RunSnoc(a + [e], Begin(r));
    RunSnoc(a + [e] + [Begin(r)], Deliver(r));
  }

  lemma ForcedNow<R, S>(s: State<R, S>, v: Id, r: R, c: Id, t: S)
    requires HubWired(s.hub)
    ensures Forced(s, v, r, c, t).now == s.now
  {
    var s1 := Apply(s, Create(r, v, false, "", false));
    var s2 := Apply(s1, Connect(c, v));
    var s3 := Apply(s2, Register(c, t));
    StepNow(s, Create(r, v, false, "", false));
    StepNow(s1, Connect(c, v));
    StepNow(s2, Register(c, t));
    StepNow(s3, Joining(c, ""));
  }

  lemma StepNow<R, S>(s: State<R, S>, e: Step<R, S>)
    requires HubWired(s.hub)
    ensures Apply(s, e).now == if e.Tick? then s.now + e.d else s.now
  {
  }

  // ---- the failing runs exist ----

  ghost const OPENING: seq<Step<nat, nat>> := ForcedSteps("R", 0, "v", 0)

  /** A room, and one connection that has joined it. */
  ghost predicate OneServed(s: State<nat, nat>) {
    && s.hub.mapped == map["R" := 0] && s.hub.node.rooms.Keys == {0} && s.hub.node.rooms[0].address == "R"
    && s.hub.node.rooms[0].createdAt == 0 && s.hub.node.rooms[0].conns == ["v"] && s.clients == map["v" := Client("R", Serving(0, 0))]
    && s.hub.node.sess.Keys == {0} && s.hub.node.sess[0].conn == "v" && s.hub.node.down == {}
    && Hearing(s.hub.node.sess[0], 1, {}) && s.work == map[0 := []] && s.seen == map[0 := []]
  }

  lemma FirstServed(s1: State<nat, nat>, s: State<nat, nat>)
    requires s1.now == 0 && s1.hub.mapped == map["R" := 0] && s1.clients == map[] && s1.work == map[0 := []] && s1.seen == map[0 := []]
    requires s1.hub.node.rooms == map[0 := NewRoom("R", false, "", s1.now)] && s1.hub.node.sess == map[] && s1.hub.node.down == {}
    requires Served(s1, s, 0, "v", Client("R", Serving(0, 0)), Before(s1, "R", "v", 0))
    ensures OneServed(s)
  {
    var n := Before(s1, "R", "v", 0);
    assert n.rooms[0].conns + ["v"] == ["v"] && "R" !in ["v"];
    assert s.hub.node.rooms[0].conns == ["v"];
    assert map[]["v" := Client("R", Serving(0, 0))] == map["v" := Client("R", Serving(0, 0))];
  }

  lemma NothingRun(none: seq<Step<nat, nat>>)
    requires none == []
    ensures var s0 := Run(none);
            && s0.hub.mapped == map[] && s0.hub.node.rooms == map[] && s0.hub.node.sess == map[] && s0.hub.node.down == {}
            && s0.clients == map[] && s0.work == map[] && s0.seen == map[] && s0.now == 0
  {
  }

  lemma FirstMade(s0: State<nat, nat>)
    requires Inv(s0) && s0.hub.mapped == map[] && s0.hub.node.rooms == map[] && s0.hub.node.sess == map[]
    requires s0.hub.node.down == {} && s0.clients == map[] && s0.work == map[] && s0.seen == map[] && s0.now == 0
    ensures OneServed(Forced(s0, "R", 0, "v", 0))
  {
    hide RoomInv, MemberInv, ClientInv, OrderInv, MappedInv, ListOk, SessionOk, RoomOk, Apply, Served, OneServed;
    MadeEffect(s0, "R", 0);
    var s1 := Made(s0, "R", 0);
    assert CanArrive(s1, "R", "v", 0);
    assert Forced(s0, "R", 0, "v", 0) == Arrived(s1, "R", "v", 0);
    hide Made, CanArrive, Arrived, Forced;
    Arrival(s1, "R", "v", 0);
    FirstServed(s1, Arrived(s1, "R", "v", 0));
  }

  lemma Opened()
    ensures OneServed(Run(OPENING))
  {
    var none: seq<Step<nat, nat>> := [];
    NothingRun(none);
    RunInv(none);
    assert none + ForcedSteps("R", 0, "v", 0) == OPENING;
    hide Run, Forced, Inv, OneServed;
    RunForced(none, "R", 0, "v", 0);
    FirstMade(Run(none));
  }

  /** An hour later the room's next sweep will close it. */
  ghost const LATER: seq<Step<nat, nat>> := OPENING + [Tick((HOUR + 1) as nat)]

  lemma OpenedNow()
    ensures Run(OPENING).now == 0
  {
    var none: seq<Step<nat, nat>> := [];
    NothingRun(none);
    assert none + ForcedSteps("R", 0, "v", 0) == OPENING;
    RunForced(none, "R", 0, "v", 0);
    ForcedNow(Run(none), "R", 0, "v", 0);
    hide Run, Forced;
  }

  lemma TickLater<R, S>(s: State<R, S>, d: nat)
    requires HubWired(s.hub)
    ensures Apply(s, Tick(d)) == s.(now := s.now + d)
  {
  }

  lemma OpenedLater()
    ensures var s := Run(LATER); OneServed(s) && Verdict(s.hub.node.rooms[0], s.now).Some?
  {
    Opened();
    OpenedNow();
    RunSnoc(OPENING, Tick((HOUR + 1) as nat));
    hide Run, Apply;
    TickLater(Run(OPENING), (HOUR + 1) as nat);
  }

  /** The sweep after the forced join closes the old room. */
  lemma SweepDue(s: State<nat, nat>, s1: State<nat, nat>)
    requires OneServed(s) && Verdict(s.hub.node.rooms[0], s.now).Some?
    requires ForcedInto(s, s1, "v", 1, "w", 1) && HubWired(s1.hub) && s1.now == s.now
    ensures WillClose(s1, Sweeping([0, 1]), 0)
  {
    hide Verdict;
    assert s1.hub.mapped == map["R" := 0]["v" := 1] && s1.hub.mapped["R"] == 0 && s1.hub.mapped["v"] == 1;
    assert s1.hub.node.rooms[0] == s.hub.node.rooms[0];
    assert Enumerates(s1.hub, [0, 1]);
  }

  lemma SomeDisorder()
    ensures exists steps: seq<Step<nat, nat>>, t :: t in Run(steps).hub.node.sess && !InOrder(Run(steps), t)
  {
    Opened();
    hide Run;
    var data := ForcedJoinBreaksOrder(OPENING, 0, 1, "w", 1);
  }

  ghost const STRANDING: seq<Step<nat, nat>> :=
    LATER + ForcedSteps("v", 1, "w", 1) + [Sweeping([0, 1])] + [Begin(1)] + [Deliver(1)]

  lemma NoneLostOrRemoved()
    ensures forall e :: e in STRANDING ==> !e.LeaveLost? && !e.Remove?
  {
  }

  lemma CanForceLater()
    ensures CanForce(Run(LATER), "v", 1, "w", 1) && "v" !in Run(LATER).hub.node.down && "w" !in Run(LATER).hub.node.down
    ensures 0 in Run(LATER).hub.node.rooms && "v" in Run(LATER).hub.node.rooms[0].conns
  {
    OpenedLater();
    hide Run;
  }

  lemma SomeDeaf()
    ensures Deaf(Run(STRANDING), 1, "w", 1)
  {
    CanForceLater();
    OpenedLater();
    RunInv(LATER);
    RunForced(LATER, "v", 1, "w", 1);
    ForcedNow(Run(LATER), "v", 1, "w", 1);
    hide Run, Forced, Deaf, Inv, WillClose, ForcedInto, CanForce, OneServed, Verdict;
    ForcedEffect(Run(LATER), "v", 1, "w", 1);
    SweepDue(Run(LATER), Run(LATER + ForcedSteps("v", 1, "w", 1)));
    ForcedJoinStrands(LATER, 0, "v", 1, "w", 1, Sweeping([0, 1]));
  }

  /** So in some run a session is out of order; and in some run in which no leave call is lost and no room
      is removed on request, a served member of an open room is deaf. */
  lemma BothFail()
    ensures exists steps: seq<Step<nat, nat>>, t :: t in Run(steps).hub.node.sess && !InOrder(Run(steps), t)
    ensures exists steps: seq<Step<nat, nat>>, r, c, t ::
              (forall e :: e in steps ==> !e.LeaveLost? && !e.Remove?) && Deaf(Run(steps), r, c, t)
  {
    SomeDisorder();
    NoneLostOrRemoved();
    SomeDeaf();
    hide Deaf, Run;
  }
}
