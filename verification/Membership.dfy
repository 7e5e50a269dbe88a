/** Members, listeners, the registry and the life of a room, over every run. */
module Membership {
  import opened Messages
  import opened Nodes
  import opened Consistency
  import opened RoomEffects
  import opened Monotone
  import opened Cluster
  import opened Invariant
  import opened Notices
  import opened Preservation
  import opened Told
  import opened History

  /** Session `t` is open and listening under connection `c`. */
  ghost predicate Listening<R, S>(n: Node<R, S>, t: S, c: Id) {
    t in n.sess && n.sess[t].conn == c && n.sess[t].status != Closed && SessL(t) in ListenersAt(n, c)
  }

  ghost predicate LeaveWasLost<R, S>(p: Phase<R, S>) {
    (p.Leaving? || p.Gone?) && !p.told
  }

  /** In every run, an id is in roomsMap exactly when one open room with that address is registered
      under it, and then that room is the mapped one. */
  lemma RegistryAgreement<R, S>(steps: seq<Step<R, S>>, id: Id, r: R)
    ensures var s := Run(steps);
            && (id in s.hub.mapped && s.hub.mapped[id] == r
                <==> r in s.hub.node.rooms && s.hub.node.rooms[r].address == id && s.hub.node.rooms[r].status != Closed)
            && (r in s.hub.node.rooms ==>
                  (RoomL(r) in ListenersAt(s.hub.node, id)
                   <==> s.hub.node.rooms[r].address == id && s.hub.node.rooms[r].status != Closed))
  {
    var s := Run(steps);
    RunInv(steps);
    if id in s.hub.mapped { assert MappedInv(s, id); }
    if r in s.hub.node.rooms {
      assert RoomInv(s, r) && RoomOk(s.hub.node, r);
      if RoomL(r) in ListenersAt(s.hub.node, id) { assert ListOk(s.hub.node, id); }
    }
  }

  /** From any state of a run to any later one, a room's status only moves Init to Running to Closed
      or Init to Closed; an Init room has no members; the done channel is closed exactly once, and
      then the room is closed for good. */
  lemma LifecycleSafety<R, S>(steps: seq<Step<R, S>>, more: seq<Step<R, S>>, r: R)
    requires r in Run(steps).hub.node.rooms
    ensures r in Run(steps + more).hub.node.rooms
    ensures var x, x' := Run(steps).hub.node.rooms[r], Run(steps + more).hub.node.rooms[r];
            && StatusMove(x.status, x'.status)
            && (x.status == Closed ==> x'.status == Closed && x'.closes == x.closes)
            && (x.status == Init ==> x.conns == [])
            && x.closes == (if x.status == Closed then 1 else 0)
  {
    RunKept(steps, more);
    assert RoomKept(Run(steps).hub.node.rooms[r], Run(steps + more).hub.node.rooms[r]);
    RunInv(steps);
    RunInv(steps + more);
    assert RoomInv(Run(steps), r) && RoomOk(Run(steps).hub.node, r) && RoomOk(Run(steps + more).hub.node, r);
  }

  // ---- closing ----

  /** Closing a room closes exactly those open sessions of its members that can still be reached and
      whose inboxes have space; each of them gets the close message last and stops listening. */
  lemma CloseCascade<R, S>(n: Node<R, S>, r: R, now: int, t: S)
    requires Tidy(n) && r in n.rooms && n.rooms[r].status != Closed
    requires t in n.sess && n.sess[t].status != Closed
    ensures var x, y := n.rooms[r], n.sess[t];
            var n' := RoomClose(n, r, now);
            var hit := y.conn in x.conns && y.conn !in n.down && !y.inbox.Full();
            && n'.rooms[r].status == Closed && RoomL(r) !in ListenersAt(n', x.address)
            && (n'.sess[t].status == Closed <==> hit)
            && (hit ==> n'.sess[t].inbox.placed == y.inbox.placed + [Close(x.address, x.why)]
                        && SessL(t) !in ListenersAt(n', y.conn))
            && (!hit ==> n'.sess[t] == y)
  {
    CloseEffect(n, r, now);
    var n' := RoomClose(n, r, now);
    assert RoomOk(n', r) && SessionOk(n', t);
  }

  lemma RunSnoc<R, S>(steps: seq<Step<R, S>>, e: Step<R, S>)
    ensures Run(steps + [e]) == Apply(Run(steps), e)
  {
    assert (steps + [e])[..|steps + [e]| - 1] == steps;
  }

  /** A closed session stays closed and unregistered, and nothing is ever placed in its inbox again. */
  lemma ClosedSessionStays<R, S>(steps: seq<Step<R, S>>, more: seq<Step<R, S>>, t: S)
    requires t in Run(steps).hub.node.sess && Run(steps).hub.node.sess[t].status == Closed
    ensures var y, n2 := Run(steps).hub.node.sess[t], Run(steps + more).hub.node;
            && t in n2.sess && n2.sess[t].status == Closed && n2.sess[t].inbox.placed == y.inbox.placed
            && SessL(t) !in ListenersAt(n2, y.conn)
  {
    RunKept(steps, more);
    RunInv(steps + more);
    assert SessionKept(Run(steps).hub.node.sess[t], Run(steps + more).hub.node.sess[t]);
    assert SessionOk(Run(steps + more).hub.node, t);
  }

  lemma ClosedRoomStays<R, S>(steps: seq<Step<R, S>>, more: seq<Step<R, S>>, r: R)
    requires r in Run(steps).hub.node.rooms && Run(steps).hub.node.rooms[r].status == Closed
    ensures var x, n2 := Run(steps).hub.node.rooms[r], Run(steps + more).hub.node;
            r in n2.rooms && n2.rooms[r].status == Closed && RoomL(r) !in ListenersAt(n2, x.address)
  {
    RunKept(steps, more);
    RunInv(steps + more);
    assert RoomKept(Run(steps).hub.node.rooms[r], Run(steps + more).hub.node.rooms[r]);
    assert RoomOk(Run(steps + more).hub.node, r);
  }

  // ---- every way a room closes ----

  /** Session `y` is open, can be reached, and has space for `k` more messages. */
  predicate Hearing(y: Session, k: nat, down: set<Id>) {
    y.status != Closed && y.conn !in down && |y.inbox.placed| - y.inbox.taken + k <= 2000
  }

  /** The step closes room `r`: on request, by a sweep's verdict, or by the verdict after a leave. */
  ghost predicate WillClose<R, S>(s: State<R, S>, e: Step<R, S>, r: R)
    requires HubWired(s.hub)
  {
    && Enabled(s, e) && r in s.hub.node.rooms
    && match e
       case Remove(id) => id in s.hub.mapped && s.hub.mapped[id] == r
       case Sweeping(order) => r in order && Verdict(s.hub.node.rooms[r], s.now).Some?
       case Departing(c) =>
         && s.clients[c].target in s.hub.mapped && s.hub.mapped[s.clients[c].target] == r
         && Verdict(Left(s.hub.node.rooms[r], c, s.now), s.now).Some?
       case _ => false
  }

  /** The last messages the remaining members get. */
  ghost function Farewell<R, S>(s: State<R, S>, e: Step<R, S>, r: R): seq<Message>
    requires HubWired(s.hub) && WillClose(s, e, r)
  {
    var x := s.hub.node.rooms[r];
    match e
    case Remove(_) => [Close(x.address, x.why)]
    case Sweeping(_) => [Close(x.address, Verdict(x, s.now).value)]
    case Departing(c) => [Leave(c), Close(x.address, Verdict(Left(x, c, s.now), s.now).value)]
  }

  /** Session `t` belongs to a member that stays to the end and can hear it. */
  ghost predicate Audience<R, S>(s: State<R, S>, e: Step<R, S>, r: R, t: S)
    requires HubWired(s.hub) && WillClose(s, e, r)
  {
    && t in s.hub.node.sess
    && s.hub.node.sess[t].conn in s.hub.node.rooms[r].conns
    && (e.Departing? ==> s.hub.node.sess[t].conn != e.c)
    && Hearing(s.hub.node.sess[t], |Farewell(s, e, r)|, s.hub.node.down)
  }

  /** A session after its farewell. */
  function Dismissed(y: Session, last: seq<Message>): Session {
    y.(status := Closed, closes := y.closes + 1, inbox := Inbox(y.inbox.placed + last, y.inbox.taken))
  }

  lemma OneRoom<R, S>(s: State<R, S>, r: R, q: R, c: Id)
    requires Inv(s) && r in s.hub.node.rooms && q in s.hub.node.rooms && r != q && c in s.hub.node.rooms[r].conns
    ensures c !in s.hub.node.rooms[q].conns
  {
    assert RoomInv(s, r) && RoomInv(s, q) && MemberInv(s, r, c) && MemberInv(s, q, c);
  }

  /** In a sweep an address is told what the one room that lists it has to say. */
  lemma {:induction false} SweepWordsOne<R, S>(s: State<R, S>, order: seq<R>, r: R, a: Id)
    requires Inv(s) && Distinct(order) && (forall q :: q in order ==> q in s.hub.node.rooms)
    requires r in order && a in s.hub.node.rooms[r].conns
    ensures SweepWords(s.hub.node.rooms, order, s.now, a) == ReapWords(s.hub.node.rooms[r], s.now, a)
    decreases |order|
  {
    hide Inv, Verdict;
    var q, rest := order[0], order[1..];
    assert order == [q] + rest && q in order;
    if q == r {
      assert r !in rest;
      forall u | u in rest ensures a !in s.hub.node.rooms[u].conns { OneRoom(s, r, u, a); }
      SweepWordsNone(s.hub.node.rooms, rest, s.now, a);
    } else {
      OneRoom(s, r, q, a);
      SweepWordsOne(s, rest, r, a);
    }
  }

  lemma {:induction false} SweepWordsNone<R>(rooms: map<R, Room>, order: seq<R>, now: int, a: Id)
    requires forall q :: q in order ==> q in rooms && (Verdict(rooms[q], now).Some? ==> a !in rooms[q].conns)
    ensures SweepWords(rooms, order, now, a) == []
    decreases |order|
  {
    hide Verdict;
    if order == [] {
    } else {
      assert order[0] in order;
      SweepWordsNone(rooms, order[1..], now, a);
    }
  }

  /** A step that closes a room tells each member that stays its farewell, and nothing else. */
  lemma FarewellWords<R, S>(s: State<R, S>, e: Step<R, S>, r: R, a: Id)
    requires Inv(s) && WillClose(s, e, r) && a in s.hub.node.rooms[r].conns && (e.Departing? ==> a != e.c)
    ensures Words(s, e, a) == Farewell(s, e, r)
  {
    assert HubWired(s.hub);
    hide Inv, Verdict;
    if e.Sweeping? {
      OrderMapped(s, e.order);
      SweepWordsOne(s, e.order, r, a);
    }
  }

  lemma OrderMapped<R, S>(s: State<R, S>, order: seq<R>)
    requires HubWired(s.hub) && Enumerates(s.hub, order)
    ensures forall q :: q in order ==> q in s.hub.node.rooms
  {
  }

  lemma Dismissal(y: Session, last: seq<Message>, down: set<Id>)
    requires Hearing(y, |last|, down)
    requires last != [] && last[|last| - 1].Close? && (|last| == 1 || (|last| == 2 && !last[0].Close?))
    ensures SessionAfter(y, last, down) == Dismissed(y, last)
  {
    if |last| == 1 {
      assert last == To([y.conn], last[0], y.conn);
      HearsTo(y, [y.conn], last[0], down);
    } else {
      var y1 := Hears(y, [y.conn], last[0], down);
      assert last[1..] == To([y.conn], last[1], y.conn);
      HearsTo(y1, [y.conn], last[1], down);
      assert y.inbox.placed + [last[0]] + [last[1]] == y.inbox.placed + last;
    }
  }

  /** Each step that closes a room closes every member's session that can hear it, with a close message last. */
  lemma StepCloses<R, S>(s: State<R, S>, e: Step<R, S>, r: R, t: S)
    requires Inv(s) && WillClose(s, e, r) && Audience(s, e, r, t)
    ensures var n1, y := Apply(s, e).hub.node, s.hub.node.sess[t];
            && t in n1.sess && n1.sess[t].status == Closed && n1.sess[t].conn == y.conn
            && n1.sess[t].inbox.placed == y.inbox.placed + Farewell(s, e, r)
  {
    assert HubWired(s.hub);
    hide Words, SessionAfter, Apply, Verdict;
    SessionTold(s, e, t);
    FarewellWords(s, e, r, s.hub.node.sess[t].conn);
    Dismissal(s.hub.node.sess[t], Farewell(s, e, r), s.hub.node.down);
  }

  lemma StepShuts<R, S>(s: State<R, S>, e: Step<R, S>, r: R)
    requires Inv(s) && WillClose(s, e, r)
    ensures r in Apply(s, e).hub.node.rooms && Apply(s, e).hub.node.rooms[r].status == Closed
    ensures Apply(s, e).hub.node.rooms[r].address == s.hub.node.rooms[r].address
  {
    hide RoomInv, MemberInv, ClientInv, OrderInv, ListOk, SessionOk, RoomOk, RoomClose, LeaveRoom, Sweep, Verdict;
    var x := s.hub.node.rooms[r];
    match e
    case Remove(id) =>
      assert MappedInv(s, id);
      ShutKeeps(s, r);
      assert HeardOnly(x.(status := Closed, closes := 1, activeAt := s.now), Apply(s, e).hub.node.rooms[r]);
    case Sweeping(order) =>
      OrderOpen(s, order);
      SweepEffect(s, order, r);
    case Departing(c) =>
      LeaveRoomKeeps(s, s.clients[c].target, c);
      assert HeardOnly(Swept(Left(x, c, s.now), s.now), Apply(s, e).hub.node.rooms[r]);
    case _ => assert false;
  }

  /** Over runs: once a room is closed, by removal, by a sweep or after a leave, whatever happens later,
      the room and the session of each member that could hear it stay closed and unregistered, and the
      close message stays the last one ever placed in the member's inbox. */
  lemma CloseIsFinal<R, S>(steps: seq<Step<R, S>>, e: Step<R, S>, r: R, t: S, more: seq<Step<R, S>>)
    requires WillClose(Run(steps), e, r) && Audience(Run(steps), e, r, t)
    ensures var s := Run(steps);
            var x, y := s.hub.node.rooms[r], s.hub.node.sess[t];
            var n2 := Run(steps + [e] + more).hub.node;
            && r in n2.rooms && n2.rooms[r].status == Closed && RoomL(r) !in ListenersAt(n2, x.address)
            && t in n2.sess && n2.sess[t].status == Closed && SessL(t) !in ListenersAt(n2, y.conn)
            && n2.sess[t].inbox.placed == y.inbox.placed + Farewell(s, e, r)
            && Farewell(s, e, r)[|Farewell(s, e, r)| - 1].Close?
  {
    RunInv(steps);
    RunSnoc(steps, e);
    StepCloses(Run(steps), e, r, t);
    StepShuts(Run(steps), e, r);
    ClosedSessionStays(steps + [e], more, t);
    ClosedRoomStays(steps + [e], more, r);
  }

  // ---- who can still be reached ----

  /** Step `e` hands session `t` a close message that room `r` has taken from its inbox. */
  ghost predicate Strikes<R, S>(s: State<R, S>, e: Step<R, S>, r: R, t: S) {
    && e == Deliver(r) && HubWired(s.hub) && CanDeliver(s, r) && t in s.hub.node.sess
    && Reached(s, r, t) && Current(s.hub.node, r).Close?
  }

  ghost predicate StruckAt<R, S>(steps: seq<Step<R, S>>, k: nat, r: R, t: S) {
    k < |steps| && Strikes(Run(steps[..k]), steps[k], r, t)
  }

  /** At some step of the run. */
  ghost predicate Struck<R, S>(steps: seq<Step<R, S>>, r: R, t: S) {
    exists k :: 0 <= k < |steps| && StruckAt(steps, k, r, t)
  }

  lemma StruckInit<R, S>(steps: seq<Step<R, S>>, r: R, t: S)
    requires steps != []
    ensures var n := |steps| - 1;
            Struck(steps, r, t) <==> Struck(steps[..n], r, t) || Strikes(Run(steps[..n]), steps[n], r, t)
  {
    hide Run, Strikes;
    var init := steps[..|steps| - 1];
    forall k | 0 <= k < |init| ensures StruckAt(init, k, r, t) <==> StruckAt(steps, k, r, t) {
      assert init[..k] == steps[..k] && init[k] == steps[k];
    }
    if Strikes(Run(init), steps[|init|], r, t) { assert StruckAt(steps, |init|, r, t); }
  }

  /** Where a connection that joined a room stood before the step. */
  lemma PhaseBefore<R, S>(s: State<R, S>, e: Step<R, S>, c: Id)
    requires HubWired(s.hub) && c in Apply(s, e).clients && RoomOf(Apply(s, e).clients[c].phase).Some?
    ensures c in s.clients && !s.clients[c].phase.Connecting?
    ensures var p, p' := s.clients[c].phase, Apply(s, e).clients[c].phase;
            && p.sess == p'.sess && (p.Started? ==> p'.Serving?)
            && (!p.Started? ==> RoomOf(p) == RoomOf(p') && (p'.Gone? <==> p.Gone? || (e == EndSession(c) && Enabled(s, e))))
  {
  }

  lemma {:induction false} KeepsOpen(y: Session, ms: seq<Message>, down: set<Id>)
    requires forall m :: m in ms ==> !m.Close?
    ensures SessionAfter(y, ms, down).status == y.status
    decreases |ms|
  {
    if ms == [] {
    } else {
      assert ms[0] in ms;
      KeepsOpen(Hears(y, [y.conn], ms[0], down), ms[1..], down);
    }
  }

  /** While room `r` stays open, no step but a hand-over tells a connection that joined it to close. */
  lemma QuietWords<R, S>(s: State<R, S>, e: Step<R, S>, r: R, c: Id)
    requires Inv(s) && Enabled(s, e) && !e.Deliver? && r in s.hub.node.rooms
    requires r in Apply(s, e).hub.node.rooms && Apply(s, e).hub.node.rooms[r].status != Closed
    requires forall q :: q in s.hub.node.rooms && c in s.hub.node.rooms[q].conns ==> q == r
    ensures forall m :: m in Words(s, e, c) ==> !m.Close?
  {
    assert HubWired(s.hub);
    if WillClose(s, e, r) { StepShuts(s, e, r); }
    hide Inv, Verdict, Apply;
    if e.Sweeping? {
      OrderMapped(s, e.order);
      SweepWordsNone(s.hub.node.rooms, e.order, s.now, c);
    }
  }

  lemma InOneRoom<R, S>(s: State<R, S>, c: Id, r: R)
    requires Inv(s) && c in s.clients && (RoomOf(s.clients[c].phase).Some? ==> RoomOf(s.clients[c].phase) == Some(r))
    ensures forall q :: q in s.hub.node.rooms && c in s.hub.node.rooms[q].conns ==> q == r
    ensures forall q :: CanDeliver(s, q) && s.work[q][0] == c ==> q == r
  {
    forall q | q in s.hub.node.rooms && c in s.hub.node.rooms[q].conns ensures q == r { assert RoomInv(s, q) && MemberInv(s, q, c); }
    forall q | CanDeliver(s, q) && s.work[q][0] == c ensures q == r { DeliverFrame(s, q); }
  }

  /** The session of a connection that joined room `r`, which stays open, is closed by its own end or by
      a close message that the room hands on; by nothing else. */
  lemma StrikesIff<R, S>(s: State<R, S>, e: Step<R, S>, r: R, t: S)
    requires Inv(s) && Enabled(s, e) && t in s.hub.node.sess && s.hub.node.sess[t].status != Closed
    requires var c := s.hub.node.sess[t].conn;
             c in s.clients && (RoomOf(s.clients[c].phase).Some? ==> RoomOf(s.clients[c].phase) == Some(r))
    requires r in s.hub.node.rooms && r in Apply(s, e).hub.node.rooms && Apply(s, e).hub.node.rooms[r].status != Closed
    requires !(e.EndSession? && s.clients[e.c].phase.sess == t)
    ensures t in Apply(s, e).hub.node.sess
    ensures Apply(s, e).hub.node.sess[t].status == Closed <==> Strikes(s, e, r, t)
  {
    var y := s.hub.node.sess[t];
    InOneRoom(s, y.conn, r);
    if e.Take? || e.EndSession? {
      OwnStep(s, e, t);
    } else {
      SessionTold(s, e, t);
      if e.Deliver? {
        hide Inv, Apply, SessionAfter, RoomOf;
        HandedClose(s, e, r, t);
      } else {
        QuietWords(s, e, r, y.conn);
        hide Inv, Apply, Words, SessionAfter, Enabled;
        KeepsOpen(y, Words(s, e, y.conn), s.hub.node.down);
      }
    }
  }

  lemma HandedClose<R, S>(s: State<R, S>, e: Step<R, S>, r: R, t: S)
    requires HubWired(s.hub) && Enabled(s, e) && e.Deliver? && t in s.hub.node.sess && s.hub.node.sess[t].status != Closed
    requires s.work[e.r][0] == s.hub.node.sess[t].conn ==> e.r == r
    ensures var y := s.hub.node.sess[t];
            SessionAfter(y, Words(s, e, y.conn), s.hub.node.down).status == Closed <==> Strikes(s, e, r, t)
  {
    hide SessionAfter;
    HearsTo(s.hub.node.sess[t], [s.work[e.r][0]], Current(s.hub.node, e.r), s.hub.node.down);
  }

  lemma OwnStep<R, S>(s: State<R, S>, e: Step<R, S>, t: S)
    requires HubWired(s.hub) && Enabled(s, e) && (e.Take? || e.EndSession?) && t in s.hub.node.sess
    requires !(e.EndSession? && s.clients[e.c].phase.sess == t)
    ensures t in Apply(s, e).hub.node.sess && Apply(s, e).hub.node.sess[t].status == s.hub.node.sess[t].status
  {
  }

  /** A connection that is in an open room after a step had its session before, and was in that room or
      about to join it. */
  lemma JoinedBefore<R, S>(s: State<R, S>, e: Step<R, S>, r: R, c: Id)
    requires Inv(s) && Joined(Apply(s, e), c, r)
    requires r in Apply(s, e).hub.node.rooms && Apply(s, e).hub.node.rooms[r].status != Closed
    ensures c in s.clients && !s.clients[c].phase.Connecting?
    ensures var p, p' := s.clients[c].phase, Apply(s, e).clients[c].phase;
            && p.sess == p'.sess && p.sess in s.hub.node.sess && s.hub.node.sess[p.sess].conn == c
            && (p.Started? ==> s.hub.node.sess[p.sess].status != Closed && !p'.Gone?)
            && (!p.Started? ==> Joined(s, c, r) && (p'.Gone? <==> p.Gone? || (e == EndSession(c) && Enabled(s, e))))
    ensures r in s.hub.node.rooms && s.hub.node.rooms[r].status != Closed
  {
    PhaseBefore(s, e, c);
    assert ClientInv(s, c);
    StepKept(s, e);
    JoinedRoom(s, e, r, c);
    hide Inv, Apply, Enabled;
    assert RoomKept(s.hub.node.rooms[r], Apply(s, e).hub.node.rooms[r]);
  }

  lemma JoinedRoom<R, S>(s: State<R, S>, e: Step<R, S>, r: R, c: Id)
    requires Inv(s) && Joined(Apply(s, e), c, r) && c in s.clients
    requires RoomOf(s.clients[c].phase).Some? ==> RoomOf(s.clients[c].phase) == Some(r)
    ensures r in s.hub.node.rooms
  {
    assert ClientInv(s, c);
    if RoomOf(s.clients[c].phase).None? { JoinsMapped(s, e, r, c); }
  }

  lemma JoinsMapped<R, S>(s: State<R, S>, e: Step<R, S>, r: R, c: Id)
    requires HubWired(s.hub) && Joined(Apply(s, e), c, r) && c in s.clients && RoomOf(s.clients[c].phase).None?
    ensures r in s.hub.node.rooms
  {
  }

  /** How the session of a connection that joined an open room closes in one step. */
  lemma ClosedStep<R, S>(s: State<R, S>, e: Step<R, S>, r: R, c: Id, t: S)
    requires Inv(s) && t in s.hub.node.sess && s.hub.node.sess[t].conn == c && c in s.clients
    requires !s.clients[c].phase.Connecting? && s.clients[c].phase.sess == t
    requires RoomOf(s.clients[c].phase).Some? ==> RoomOf(s.clients[c].phase) == Some(r)
    requires r in s.hub.node.rooms && r in Apply(s, e).hub.node.rooms && Apply(s, e).hub.node.rooms[r].status != Closed
    ensures t in Apply(s, e).hub.node.sess
    ensures Apply(s, e).hub.node.sess[t].status == Closed
       <==> s.hub.node.sess[t].status == Closed || Strikes(s, e, r, t) || (e == EndSession(c) && Enabled(s, e))
  {
    StepKept(s, e);
    assert SessionKept(s.hub.node.sess[t], Apply(s, e).hub.node.sess[t]);
    if s.hub.node.sess[t].status == Closed {
    } else if !Enabled(s, e) {
      Disabled(s, e);
      hide Inv, Apply, Kept;
    } else if e.EndSession? && s.clients[e.c].phase.sess == t {
      OwnEnd(s, e.c);
      EndCloses(s, e.c);
      hide Inv, Apply, Kept;
    } else {
      hide Apply, Kept, Inv, Strikes, Enabled;
      StrikesIff(s, e, r, t);
    }
  }

  lemma OwnEnd<R, S>(s: State<R, S>, c: Id)
    requires Inv(s) && c in s.clients && !s.clients[c].phase.Connecting?
    ensures s.clients[c].phase.sess in s.hub.node.sess && s.hub.node.sess[s.clients[c].phase.sess].conn == c
  {
    assert ClientInv(s, c);
  }

  lemma EndCloses<R, S>(s: State<R, S>, c: Id)
    requires HubWired(s.hub) && Enabled(s, EndSession(c))
    ensures var t := s.clients[c].phase.sess;
            t in Apply(s, EndSession(c)).hub.node.sess && Apply(s, EndSession(c)).hub.node.sess[t].status == Closed
  {
  }

  lemma StrikeCloses<R, S>(s: State<R, S>, e: Step<R, S>, r: R, t: S)
    requires Inv(s) && Strikes(s, e, r, t)
    ensures t in Apply(s, e).hub.node.sess && Apply(s, e).hub.node.sess[t].status == Closed
  {
    DeliverGot(s, r, t);
    hide Inv, DoDeliver, Reached;
  }

  /** A session that was handed a close message is closed for good. */
  lemma StruckCloses<R, S>(steps: seq<Step<R, S>>, k: nat, r: R, t: S)
    requires StruckAt(steps, k, r, t)
    ensures t in Run(steps).hub.node.sess && Run(steps).hub.node.sess[t].status == Closed
  {
    RunInv(steps[..k]);
    RunSnoc(steps[..k], steps[k]);
    hide Run, Inv, Strikes, Apply;
    StrikeCloses(Run(steps[..k]), steps[k], r, t);
    assert steps == steps[..k] + [steps[k]] + steps[k + 1..];
    RunKept(steps[..k] + [steps[k]], steps[k + 1..]);
    assert SessionKept(Run(steps[..k] + [steps[k]]).hub.node.sess[t], Run(steps).hub.node.sess[t]);
  }

  /** The session of a connection that joined a room still open is closed exactly when it has ended or the
      room handed it a close message. */
  lemma {:induction false} ClosedIff<R, S>(steps: seq<Step<R, S>>, r: R, c: Id)
    requires r in Run(steps).hub.node.rooms && Run(steps).hub.node.rooms[r].status != Closed && Joined(Run(steps), c, r)
    ensures var p := Run(steps).clients[c].phase;
            && p.sess in Run(steps).hub.node.sess
            && (Run(steps).hub.node.sess[p.sess].status == Closed <==> p.Gone? || Struck(steps, r, p.sess))
    decreases |steps|
  {
    if steps == [] {
    } else {
      var init, e := steps[..|steps| - 1], steps[|steps| - 1];
      var s, t := Run(init), Run(steps).clients[c].phase.sess;
      RunInv(init);
      RunInv(steps);
      RunSnoc(init, e);
      assert init + [e] == steps;
      hide Run, Inv, Apply, Strikes, Enabled;
      StruckInit(steps, r, t);
      JoinedBefore(s, e, r, c);
      ClosedStep(s, e, r, c, t);
      if s.clients[c].phase.Started? {
        if k :| 0 <= k < |init| && StruckAt(init, k, r, t) { StruckCloses(init, k, r, t); }
      } else {
        ClosedIff(init, r, c);
      }
    }
  }

  /** In every run, a connection listed in an open room joined it and is still served, unless its leave
      call was lost; its session listens exactly until it has ended or the room has handed it a close
      message, which the room had in its own inbox. */
  lemma ListensIff<R, S>(steps: seq<Step<R, S>>, r: R, c: Id)
    requires r in Run(steps).hub.node.rooms && Run(steps).hub.node.rooms[r].status != Closed
    requires c in Run(steps).hub.node.rooms[r].conns
    ensures var s := Run(steps);
            && c in s.clients && Joined(s, c, r)
            && var p := s.clients[c].phase;
            && (p.Serving? || LeaveWasLost(p))
            && (Listening(s.hub.node, p.sess, c) <==> !p.Gone? && !Struck(steps, r, p.sess))
  {
    var s := Run(steps);
    RunInv(steps);
    assert RoomInv(s, r) && MemberInv(s, r, c) && ClientInv(s, c);
    assert SessionOk(s.hub.node, s.clients[c].phase.sess);
    hide Run, Inv, RoomInv, MemberInv, ClientInv, Struck;
    ClosedIff(steps, r, c);
  }

  /** A room that no connection is named after never has a close message to hand on. */
  lemma NeverStruck<R, S>(steps: seq<Step<R, S>>, k: nat, r: R, t: S)
    requires r in Run(steps).hub.node.rooms && FromClients(Run(steps).hub.node.rooms[r].inbox.placed)
    ensures !StruckAt(steps, k, r, t)
  {
    if StruckAt(steps, k, r, t) {
      assert steps == steps[..k] + steps[k..];
      RunKept(steps[..k], steps[k..]);
      hide Run;
      assert false;
    }
  }

  /** In every run, a connection listed in an open room joined it, and its session listens exactly until
      it has ended; unless the leave call was lost it is still served. Rooms made under the id of a
      connection are excepted. */
  lemma MemberReachable<R, S>(steps: seq<Step<R, S>>, r: R, c: Id)
    requires r in Run(steps).hub.node.rooms && Run(steps).hub.node.rooms[r].status != Closed
    requires c in Run(steps).hub.node.rooms[r].conns && Run(steps).hub.node.rooms[r].address !in Run(steps).clients
    ensures var s := Run(steps);
            && c in s.clients && Joined(s, c, r)
            && var p := s.clients[c].phase;
            && (p.Serving? || LeaveWasLost(p))
            && (Listening(s.hub.node, p.sess, c) <==> !p.Gone?)
  {
    RunInv(steps);
    assert RoomInv(Run(steps), r);
    ListensIff(steps, r, c);
    hide Run, Inv, StruckAt, RoomInv;
    var t := Run(steps).clients[c].phase.sess;
    if k :| 0 <= k < |steps| && StruckAt(steps, k, r, t) { NeverStruck(steps, k, r, t); }
  }

  lemma {:induction false} NoneLost<R, S>(steps: seq<Step<R, S>>, c: Id)
    requires forall e :: e in steps ==> !e.LeaveLost?
    requires c in Run(steps).clients
    ensures !LeaveWasLost(Run(steps).clients[c].phase)
    decreases |steps|
  {
    if steps == [] {
    } else {
      var n := |steps| - 1;
      assert steps[n] in steps && forall e :: e in steps[..n] ==> e in steps;
      if c in Run(steps[..n]).clients { NoneLost(steps[..n], c); }
      PhaseNotLost(Run(steps[..n]), steps[n], c);
    }
  }

  lemma PhaseNotLost<R, S>(s: State<R, S>, e: Step<R, S>, c: Id)
    requires HubWired(s.hub) && !e.LeaveLost? && c in Apply(s, e).clients
    requires c in s.clients ==> !LeaveWasLost(s.clients[c].phase)
    ensures !LeaveWasLost(Apply(s, e).clients[c].phase)
  {
  }

  /** When no leave call is lost, every connection listed in an open room has an open listener, unless
      the room was made under the id of a connection. */
  lemma MemberImpliesListener<R, S>(steps: seq<Step<R, S>>, r: R, c: Id)
    requires forall e :: e in steps ==> !e.LeaveLost?
    requires r in Run(steps).hub.node.rooms && Run(steps).hub.node.rooms[r].status != Closed
    requires c in Run(steps).hub.node.rooms[r].conns && Run(steps).hub.node.rooms[r].address !in Run(steps).clients
    ensures c in Run(steps).clients && Run(steps).clients[c].phase.Serving?
         && Listening(Run(steps).hub.node, Run(steps).clients[c].phase.sess, c)
  {
    MemberReachable(steps, r, c);
    NoneLost(steps, c);
  }

  /** The other half: from any run, when the leave call of a served member of an open room is lost, the
      member stays listed after its session is gone. */
  lemma LostLeaveStrands<R, S>(steps: seq<Step<R, S>>, r: R, c: Id)
    requires r in Run(steps).hub.node.rooms && Run(steps).hub.node.rooms[r].status != Closed
    requires c in Run(steps).hub.node.rooms[r].conns && c in Run(steps).clients && Run(steps).clients[c].phase.Serving?
    ensures var t := Run(steps).clients[c].phase.sess;
            var s2 := Run(steps + [LeaveLost(c)] + [EndSession(c)]);
            && r in s2.hub.node.rooms && s2.hub.node.rooms[r].status != Closed && c in s2.hub.node.rooms[r].conns
            && !Listening(s2.hub.node, t, c)
  {
    RunInv(steps);
    assert ClientInv(Run(steps), c);
    RunSnoc(steps, LeaveLost(c));
    RunSnoc(steps + [LeaveLost(c)], EndSession(c));
    hide Run, Inv, ClientInv;
    LostThenEnded(Run(steps), c);
  }

  lemma LostThenEnded<R, S>(s: State<R, S>, c: Id)
    requires HubWired(s.hub) && c in s.clients && s.clients[c].phase.Serving? && s.clients[c].phase.sess in s.hub.node.sess
    ensures var s2 := Apply(Apply(s, LeaveLost(c)), EndSession(c));
            s2.hub.node.rooms == s.hub.node.rooms && !Listening(s2.hub.node, s.clients[c].phase.sess, c)
  {
  }
}
