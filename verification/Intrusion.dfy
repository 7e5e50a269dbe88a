/** Broadcasts that reach a session from elsewhere than its room. */
module Intrusion {
  import opened Messages
  import opened Nodes
  import opened Consistency
  import opened Cluster
  import opened Invariant
  import opened Notices
  import opened Preservation
  import opened Told
  import opened History
  import opened Ordering
  import opened Membership

  // Only a broadcast to a room made under the id of a connection reaches that connection's session past
  // the room it joined. Counting those decides, over whole runs, what a session holds and in what order.

  /** The step is a broadcast to session `t`'s own connection, and it is heard. */
  ghost predicate Intrudes<R, S>(s: State<R, S>, e: Step<R, S>, t: S) {
    && e.SendAll? && Enabled(s, e) && t in s.hub.node.sess && s.clients[e.c].target == s.hub.node.sess[t].conn
    && Hearing(s.hub.node.sess[t], 1, s.hub.node.down)
  }

  /** How many steps of the run did that. */
  ghost function Intrusions<R, S>(steps: seq<Step<R, S>>, t: S): nat
    decreases |steps|
  {
    if steps == [] then 0
    else
      var n := |steps| - 1;
      Intrusions(steps[..n], t) + if Intrudes(Run(steps[..n]), steps[n], t) then 1 else 0
  }

  lemma {:induction false} SameBroadcasts(y: Session, ms: seq<Message>, down: set<Id>)
    requires forall m :: m in ms ==> !m.Broadcast?
    ensures Broadcasts(SessionAfter(y, ms, down).inbox.placed) == Broadcasts(y.inbox.placed)
    decreases |ms|
  {
    if ms == [] {
    } else {
      assert ms[0] in ms;
      HeardKeepsOrder(y, [y.conn], ms[0], down);
      SameBroadcasts(Hears(y, [y.conn], ms[0], down), ms[1..], down);
    }
  }

  lemma {:induction false} SweepsNoBroadcast<R>(rooms: map<R, Room>, order: seq<R>, now: int, a: Id)
    requires forall r :: r in order ==> r in rooms
    ensures forall m :: m in SweepWords(rooms, order, now, a) ==> !m.Broadcast?
    decreases |order|
  {
    hide Verdict;
    if order == [] {
    } else {
      SweepsNoBroadcast(rooms, order[1..], now, a);
    }
  }

  lemma NoBroadcastWords<R, S>(s: State<R, S>, e: Step<R, S>, a: Id)
    requires HubWired(s.hub) && Enabled(s, e) && !e.SendAll? && !e.Deliver?
    ensures forall m :: m in Words(s, e, a) ==> !m.Broadcast?
  {
    hide Verdict;
    if e.Sweeping? {
      OrderMapped(s, e.order);
      SweepsNoBroadcast(s.hub.node.rooms, e.order, s.now, a);
    }
  }

  /** The broadcast session `t` hears in the step, if any, and the number its history gets. */
  ghost function News<R, S>(s: State<R, S>, e: Step<R, S>, t: S): seq<Message>
    requires t in s.hub.node.sess
  {
    if Intrudes(s, e, t) then [Broadcast(e.data, e.c, e.includeSelf)]
    else if e.Deliver? && CanDeliver(s, e.r) && Reached(s, e.r, t) && Current(s.hub.node, e.r).Broadcast?
    then [Current(s.hub.node, e.r)] else []
  }

  ghost function Number<R, S>(s: State<R, S>, e: Step<R, S>, t: S): seq<nat>
    requires t in s.hub.node.sess
  {
    if e.Deliver? && CanDeliver(s, e.r) && Reached(s, e.r, t) && Current(s.hub.node, e.r).Broadcast?
    then [(s.hub.node.rooms[e.r].inbox.taken - 1) as nat] else []
  }

  /** What the step adds to the broadcasts and the history of session `t`. */
  ghost predicate Adds<R, S>(s: State<R, S>, s': State<R, S>, t: S, news: seq<Message>, numbers: seq<nat>) {
    && t in s.hub.node.sess && t in s'.hub.node.sess && t in s.got && t in s'.got
    && s'.hub.node.sess[t].conn == s.hub.node.sess[t].conn
    && Broadcasts(s'.hub.node.sess[t].inbox.placed) == Broadcasts(s.hub.node.sess[t].inbox.placed) + news
    && s'.got[t] == s.got[t] + numbers
  }

  lemma StepNews<R, S>(s: State<R, S>, e: Step<R, S>, t: S)
    requires Inv(s) && t in s.hub.node.sess
    ensures Adds(s, Apply(s, e), t, News(s, e, t), Number(s, e, t))
  {
    assert OrderInv(s, t);
    StepKept(s, e);
    assert SessionKept(s.hub.node.sess[t], Apply(s, e).hub.node.sess[t]);
    if e.Deliver? && CanDeliver(s, e.r) {
      DeliverNews(s, e.r, t);
    } else if Enabled(s, e) {
      GotStays(s, e, t);
      if e.SendAll? {
        SendAllNews(s, e, t);
      } else {
        QuietNews(s, e, t);
      }
      OtherNews(s, Apply(s, e), e, t);
    } else {
      DisabledNews(s, e, t);
      OtherNews(s, s, e, t);
    }
  }

  lemma DisabledNews<R, S>(s: State<R, S>, e: Step<R, S>, t: S)
    requires HubWired(s.hub) && t in s.hub.node.sess && !Enabled(s, e)
    ensures Apply(s, e) == s && News(s, e, t) == []
  {
  }

  lemma OtherNews<R, S>(s: State<R, S>, s': State<R, S>, e: Step<R, S>, t: S)
    requires t in s.hub.node.sess && t in s'.hub.node.sess && t in s.got && t in s'.got && !(e.Deliver? && CanDeliver(s, e.r))
    requires s'.hub.node.sess[t].conn == s.hub.node.sess[t].conn && s'.got[t] == s.got[t]
    requires Broadcasts(s'.hub.node.sess[t].inbox.placed) == Broadcasts(s.hub.node.sess[t].inbox.placed) + News(s, e, t)
    ensures Adds(s, s', t, News(s, e, t), Number(s, e, t))
  {
    hide Broadcasts;
  }

  lemma QuietNews<R, S>(s: State<R, S>, e: Step<R, S>, t: S)
    requires Inv(s) && t in s.hub.node.sess && Enabled(s, e) && !e.Deliver? && !e.SendAll?
    ensures t in Apply(s, e).hub.node.sess
    ensures Broadcasts(Apply(s, e).hub.node.sess[t].inbox.placed) == Broadcasts(s.hub.node.sess[t].inbox.placed)
    ensures News(s, e, t) == []
  {
    if e.Take? || e.EndSession? {
      OwnNews(s, e, t);
    } else {
      SessionTold(s, e, t);
      NoBroadcastWords(s, e, s.hub.node.sess[t].conn);
      SameBroadcasts(s.hub.node.sess[t], Words(s, e, s.hub.node.sess[t].conn), s.hub.node.down);
      hide Inv, Apply, Words, Broadcasts;
    }
  }

  lemma GotStays<R, S>(s: State<R, S>, e: Step<R, S>, t: S)
    requires HubWired(s.hub) && t in s.hub.node.sess && t in s.got && Enabled(s, e) && !e.Deliver?
    ensures t in Apply(s, e).got && Apply(s, e).got[t] == s.got[t]
  {
  }

  lemma OwnNews<R, S>(s: State<R, S>, e: Step<R, S>, t: S)
    requires HubWired(s.hub) && t in s.hub.node.sess && (e.Take? || e.EndSession?)
    ensures t in Apply(s, e).hub.node.sess && Apply(s, e).hub.node.sess[t].inbox.placed == s.hub.node.sess[t].inbox.placed
  {
  }

  lemma SendAllNews<R, S>(s: State<R, S>, e: Step<R, S>, t: S)
    requires Inv(s) && t in s.hub.node.sess && Enabled(s, e) && e.SendAll?
    ensures t in Apply(s, e).hub.node.sess
    ensures Broadcasts(Apply(s, e).hub.node.sess[t].inbox.placed) == Broadcasts(s.hub.node.sess[t].inbox.placed) + News(s, e, t)
  {
    assert HubWired(s.hub);
    SessionTold(s, e, t);
    hide Inv, Apply, Broadcasts, SessionAfter, Enabled, Words, News;
    SendAllHeard(s, e, t);
  }

  lemma SendAllHeard<R, S>(s: State<R, S>, e: Step<R, S>, t: S)
    requires HubWired(s.hub) && t in s.hub.node.sess && Enabled(s, e) && e.SendAll?
    ensures var y := s.hub.node.sess[t];
            Broadcasts(SessionAfter(y, Words(s, e, y.conn), s.hub.node.down).inbox.placed) == Broadcasts(y.inbox.placed) + News(s, e, t)
  {
    var y, m := s.hub.node.sess[t], Broadcast(e.data, e.c, e.includeSelf);
    hide Broadcasts, SessionAfter;
    HearsTo(y, [s.clients[e.c].target], m, s.hub.node.down);
    BroadcastsAppend(y.inbox.placed, m);
  }

  lemma DeliverIs<R, S>(s: State<R, S>, r: R)
    requires HubWired(s.hub) && CanDeliver(s, r)
    ensures Apply(s, Deliver(r)) == DoDeliver(s, r)
  {
    hide DoDeliver;
  }

  lemma DeliverNews<R, S>(s: State<R, S>, r: R, t: S)
    requires Inv(s) && t in s.hub.node.sess && CanDeliver(s, r)
    ensures Adds(s, Apply(s, Deliver(r)), t, News(s, Deliver(r), t), Number(s, Deliver(r), t))
  {
    DeliverGot(s, r, t);
    hide Inv, Broadcasts, Reached;
    DeliverIs(s, r);
    hide Apply, DoDeliver;
    BroadcastsAppend(s.hub.node.sess[t].inbox.placed, Current(s.hub.node, r));
    assert s.hub.node.sess[t].inbox.placed + [] == s.hub.node.sess[t].inbox.placed;
  }

  // ---- counting over a run ----

  /** Session `t` holds exactly the broadcasts its room handed it. */
  ghost predicate Handed<R, S>(s: State<R, S>, t: S)
    requires t in s.hub.node.sess
  {
    var x := s.hub.node.sess[t];
    && x.conn in s.clients && t in s.got
    && match RoomOf(s.clients[x.conn].phase)
       case None => s.got[t] == [] && Broadcasts(x.inbox.placed) == []
       case Some(r) =>
         && r in s.hub.node.rooms && Below(s.got[t], |s.hub.node.rooms[r].inbox.placed|)
         && Broadcasts(x.inbox.placed) == Picked(s.hub.node.rooms[r].inbox.placed, s.got[t])
  }

  /** A session that starts holds nothing and has no history. */
  lemma NewcomerEmpty<R, S>(s: State<R, S>, e: Step<R, S>, t: S)
    requires Inv(s) && t !in s.hub.node.sess && t in Apply(s, e).hub.node.sess
    ensures var s' := Apply(s, e);
            && t in s'.got && s'.got[t] == [] && Broadcasts(s'.hub.node.sess[t].inbox.placed) == []
            && s'.hub.node.sess[t].conn in s'.clients && RoomOf(s'.clients[s'.hub.node.sess[t].conn].phase).None?
  {
    Newcomer(s, e, t);
    hide Inv, Broadcasts;
  }

  lemma {:induction false} NoneBefore<R, S>(steps: seq<Step<R, S>>, t: S)
    requires t !in Run(steps).hub.node.sess
    ensures Intrusions(steps, t) == 0
    decreases |steps|
  {
    if steps == [] {
    } else {
      var init := steps[..|steps| - 1];
      assert steps == init + [steps[|steps| - 1]];
      RunKept(init, [steps[|steps| - 1]]);
      hide Run, Intrudes;
      assert t !in Run(init).hub.node.sess;
      NoneBefore(init, t);
      NotIntruding(Run(init), steps[|steps| - 1], t);
    }
  }

  lemma NotIntruding<R, S>(s: State<R, S>, e: Step<R, S>, t: S)
    requires t !in s.hub.node.sess
    ensures !Intrudes(s, e, t)
  {
  }

  /** In every run, a session holds one broadcast for each that its room handed it and one for each
      intrusion, and none else. */
  lemma {:induction false} BroadcastCount<R, S>(steps: seq<Step<R, S>>, t: S)
    requires t in Run(steps).hub.node.sess
    ensures var s := Run(steps);
            && t in s.got && |Broadcasts(s.hub.node.sess[t].inbox.placed)| == |s.got[t]| + Intrusions(steps, t)
    decreases |steps|
  {
    if steps == [] {
    } else {
      var init, e := steps[..|steps| - 1], steps[|steps| - 1];
      var s := Run(init);
      RunInv(init);
      RunSnoc(init, e);
      assert init + [e] == steps;
      hide Run, Apply, Inv, Broadcasts, Intrudes;
      if t in s.hub.node.sess {
        BroadcastCount(init, t);
        StepNews(s, e, t);
        NewsCount(s, e, t);
      } else {
        NewcomerEmpty(s, e, t);
        NoneBefore(init, t);
        NotIntruding(s, e, t);
      }
    }
  }

  lemma NewsCount<R, S>(s: State<R, S>, e: Step<R, S>, t: S)
    requires t in s.hub.node.sess
    ensures |News(s, e, t)| == |Number(s, e, t)| + if Intrudes(s, e, t) then 1 else 0
  {
  }

  // ---- what a session holds, and in what order ----

  lemma HandedStep<R, S>(s: State<R, S>, e: Step<R, S>, t: S)
    requires Inv(s) && t in s.hub.node.sess && Handed(s, t) && !Intrudes(s, e, t)
    ensures t in Apply(s, e).hub.node.sess && Handed(Apply(s, e), t)
  {
    var c := s.hub.node.sess[t].conn;
    StepNews(s, e, t);
    RoomStays(s, e, c);
    StepKept(s, e);
    OwnRoomHands(s, e, t);
    var s' := Apply(s, e);
    JoinsKnown(s, e, c);
    hide Inv, Apply, Broadcasts, Picked, Intrudes, Enabled, Reached, Adds, Handed, News, Number;
    var p' := RoomOf(s'.clients[c].phase);
    if p'.Some? {
      assert RoomKept(s.hub.node.rooms[p'.value], s'.hub.node.rooms[p'.value]);
      HandedIn(s, s', e, t, p'.value);
    } else {
      HandedOut(s, s', e, t);
    }
  }

  lemma JoinsKnown<R, S>(s: State<R, S>, e: Step<R, S>, c: Id)
    requires Inv(s) && c in s.clients && c in Apply(s, e).clients
    ensures RoomOf(Apply(s, e).clients[c].phase).Some? ==> RoomOf(Apply(s, e).clients[c].phase).value in s.hub.node.rooms
  {
    assert ClientInv(s, c);
    if RoomOf(Apply(s, e).clients[c].phase).Some? && RoomOf(s.clients[c].phase).None? {
      JoinsMapped(s, e, RoomOf(Apply(s, e).clients[c].phase).value, c);
    } else {
      RoomStays(s, e, c);
    }
  }

  lemma OwnRoomHands<R, S>(s: State<R, S>, e: Step<R, S>, t: S)
    requires Inv(s) && t in s.hub.node.sess
    ensures e.Deliver? && CanDeliver(s, e.r) && Reached(s, e.r, t) ==> Joined(s, s.hub.node.sess[t].conn, e.r)
  {
    if e.Deliver? && CanDeliver(s, e.r) && Reached(s, e.r, t) { DeliverFrame(s, e.r); }
  }

  lemma HandedOut<R, S>(s: State<R, S>, s': State<R, S>, e: Step<R, S>, t: S)
    requires t in s.hub.node.sess && Adds(s, s', t, News(s, e, t), Number(s, e, t)) && Handed(s, t) && !Intrudes(s, e, t)
    requires s.hub.node.sess[t].conn in s.clients && s.hub.node.sess[t].conn in s'.clients
    requires RoomOf(s'.clients[s.hub.node.sess[t].conn].phase) == None
    requires RoomOf(s.clients[s.hub.node.sess[t].conn].phase) == None
    requires e.Deliver? && CanDeliver(s, e.r) && Reached(s, e.r, t) ==> Joined(s, s.hub.node.sess[t].conn, e.r)
    ensures Handed(s', t)
  {
    hide Broadcasts;
  }

  lemma HandedIn<R, S>(s: State<R, S>, s': State<R, S>, e: Step<R, S>, t: S, r: R)
    requires t in s.hub.node.sess && Adds(s, s', t, News(s, e, t), Number(s, e, t)) && Handed(s, t) && !Intrudes(s, e, t)
    requires s.hub.node.sess[t].conn in s.clients && s.hub.node.sess[t].conn in s'.clients
    requires RoomOf(s'.clients[s.hub.node.sess[t].conn].phase) == Some(r)
    requires RoomOf(s.clients[s.hub.node.sess[t].conn].phase) in {None, Some(r)}
    requires r in s.hub.node.rooms && r in s'.hub.node.rooms && s.hub.node.rooms[r].inbox.placed <= s'.hub.node.rooms[r].inbox.placed
    requires e.Deliver? && CanDeliver(s, e.r) && Reached(s, e.r, t) ==> e.r == r
    ensures Handed(s', t)
  {
    hide Broadcasts;
    var placed, placed' := s.hub.node.rooms[r].inbox.placed, s'.hub.node.rooms[r].inbox.placed;
    PickedStays(placed, placed', s.got[t]);
    if Number(s, e, t) != [] { PickedOne(placed', s.got[t], Number(s, e, t)[0]); }
    assert Picked(placed', s.got[t]) + [] == Picked(placed', s.got[t]) && s.got[t] + [] == s.got[t];
  }

  /** A connection stays in the room it joined. */
  lemma RoomStays<R, S>(s: State<R, S>, e: Step<R, S>, c: Id)
    requires HubWired(s.hub) && c in s.clients
    ensures c in Apply(s, e).clients
    ensures RoomOf(s.clients[c].phase).Some? ==> RoomOf(Apply(s, e).clients[c].phase) == RoomOf(s.clients[c].phase)
  {
  }

  lemma HandedOrdered<R, S>(s: State<R, S>, t: S)
    requires Inv(s) && t in s.hub.node.sess && Handed(s, t)
    ensures InOrder(s, t)
  {
    hide RoomInv, MemberInv, ClientInv, MappedInv, Tidy, Broadcasts;
    assert OrderInv(s, t);
    var p := RoomOf(s.clients[s.hub.node.sess[t].conn].phase);
    if p.Some? {
      var b := s.hub.node.rooms[p.value].inbox;
      assert b.placed == Dequeued(b) + b.placed[b.taken..];
      PickedPrefix(Dequeued(b), b.placed[b.taken..], s.got[t]);
      assert Broadcasts(s.hub.node.sess[t].inbox.placed) == Picked(Dequeued(b), s.got[t]);
    }
  }

  lemma {:induction false} HandedRun<R, S>(steps: seq<Step<R, S>>, t: S)
    requires t in Run(steps).hub.node.sess && Intrusions(steps, t) == 0
    ensures Handed(Run(steps), t)
    decreases |steps|
  {
    if steps == [] {
    } else {
      var init, e := steps[..|steps| - 1], steps[|steps| - 1];
      var s := Run(init);
      RunInv(init);
      RunSnoc(init, e);
      assert init + [e] == steps;
      hide Run, Apply, Inv, Broadcasts, Intrudes;
      if t in s.hub.node.sess {
        HandedRun(init, t);
        HandedStep(s, e, t);
      } else {
        NewcomerEmpty(s, e, t);
      }
    }
  }

  lemma HandedNumbers<R, S>(s: State<R, S>, t: S)
    requires t in s.hub.node.sess && Handed(s, t)
    ensures |Broadcasts(s.hub.node.sess[t].inbox.placed)| == |s.got[t]|
  {
    hide Broadcasts;
  }

  /** Over every run, aliased or not: a session holds exactly what its room handed it, in the order of the
      room, exactly when no broadcast to its own connection reached it; and then its broadcasts are in
      order. */
  lemma OrderOverRuns<R, S>(steps: seq<Step<R, S>>, t: S)
    requires t in Run(steps).hub.node.sess
    ensures Handed(Run(steps), t) <==> Intrusions(steps, t) == 0
    ensures Intrusions(steps, t) == 0 ==> InOrder(Run(steps), t)
  {
    BroadcastCount(steps, t);
    RunInv(steps);
    hide Run, Inv, Handed, Broadcasts;
    if Intrusions(steps, t) == 0 {
      HandedRun(steps, t);
      HandedOrdered(Run(steps), t);
    }
    if Handed(Run(steps), t) { HandedNumbers(Run(steps), t); }
  }
}
