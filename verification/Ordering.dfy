/** Total order of broadcasts, over every run and every interleaving. */
module Ordering {
  import opened Messages
  import opened Nodes
  import opened Consistency
  import opened RoomEffects
  import opened Monotone
  import opened Cluster
  import opened Invariant
  import opened Notices
  import opened Preservation
  import opened History

  /** `xs` is what is left of `ys` after dropping some items: in order, none twice. */
  ghost predicate SubsequenceOf(xs: seq<Message>, ys: seq<Message>) {
    exists ks: seq<nat> :: Increasing(ks) && Below(ks, |ys|) && xs == Picked(ys, ks)
  }

  ghost function Dequeued(b: Inbox): seq<Message>
    requires b.taken <= |b.placed|
  {
    b.placed[..b.taken]
  }

  /** The broadcasts session `t` has received are an in-order, duplicate-free part of the one sequence
      its room's consumer took; if it joined no room it received none. */
  ghost predicate InOrder<R, S>(s: State<R, S>, t: S)
    requires t in s.hub.node.sess
  {
    var x := s.hub.node.sess[t];
    && x.conn in s.clients
    && match RoomOf(s.clients[x.conn].phase)
       case None => Broadcasts(x.inbox.placed) == []
       case Some(r) =>
         && r in s.hub.node.rooms
         && s.hub.node.rooms[r].inbox.taken <= |s.hub.node.rooms[r].inbox.placed|
         && SubsequenceOf(Broadcasts(x.inbox.placed), Dequeued(s.hub.node.rooms[r].inbox))
  }

  /** In every run, the broadcasts of each session are in order, unless a room was made under the id of
      its connection. */
  lemma TotalOrder<R, S>(steps: seq<Step<R, S>>, t: S)
    requires t in Run(steps).hub.node.sess && Unnamed(Run(steps).hub.node, Run(steps).hub.node.sess[t].conn)
    ensures InOrder(Run(steps), t)
  {
    var s := Run(steps);
    RunInv(steps);
    hide Run, Inv, Unnamed, Broadcasts;
    OrderHolds(s, t);
  }

  lemma OrderHolds<R, S>(s: State<R, S>, t: S)
    requires Inv(s) && t in s.hub.node.sess && Unnamed(s.hub.node, s.hub.node.sess[t].conn)
    ensures InOrder(s, t)
  {
    hide RoomInv, MemberInv, ClientInv, MappedInv, Tidy, Broadcasts;
    assert OrderInv(s, t);
    match RoomOf(s.clients[s.hub.node.sess[t].conn].phase)
    case None =>
    case Some(r) =>
      var b := s.hub.node.rooms[r].inbox;
      assert b.placed == Dequeued(b) + b.placed[b.taken..];
      PickedPrefix(Dequeued(b), b.placed[b.taken..], s.got[t]);
      assert Broadcasts(s.hub.node.sess[t].inbox.placed) == Picked(Dequeued(b), s.got[t]);
  }

  /** The step makes a room under the id `c`. */
  ghost predicate Names<R, S>(s: State<R, S>, e: Step<R, S>, c: Id) {
    e.Create? && Enabled(s, e) && Creates(s.hub, e.full, e.id, e.useSecret, e.secret) && e.id == c
  }

  ghost predicate NamesAt<R, S>(steps: seq<Step<R, S>>, k: nat, c: Id)
    requires k < |steps|
  {
    Names(Run(steps[..k]), steps[k], c)
  }

  ghost predicate NeverNames<R, S>(steps: seq<Step<R, S>>, c: Id) {
    forall k :: 0 <= k < |steps| ==> !NamesAt(steps, k, c)
  }

  lemma NeverNamesInit<R, S>(steps: seq<Step<R, S>>, c: Id)
    requires steps != []
    ensures NeverNames(steps, c) <==> NeverNames(steps[..|steps| - 1], c) && !NamesAt(steps, |steps| - 1, c)
  {
    hide Run, Names;
    var init := steps[..|steps| - 1];
    forall k | 0 <= k < |init| ensures NamesAt(init, k, c) == NamesAt(steps, k, c) {
      assert init[..k] == steps[..k] && init[k] == steps[k];
    }
    if NeverNames(steps, c) {
      forall k | 0 <= k < |init| ensures !NamesAt(init, k, c) { assert !NamesAt(steps, k, c); }
    }
  }

  /** The condition of the order theorems, read off the steps of the run: no room has the id `c` exactly
      when no Create step made one under it. */
  lemma {:induction false} UnnamedIff<R, S>(steps: seq<Step<R, S>>, c: Id)
    ensures Unnamed(Run(steps).hub.node, c) <==> NeverNames(steps, c)
    decreases |steps|
  {
    if steps == [] {
    } else {
      var n := |steps| - 1;
      RunInv(steps[..n]);
      UnnamedIff(steps[..n], c);
      NeverNamesInit(steps, c);
      hide Inv, Names, Unnamed, NeverNames, Apply;
      StepNames(Run(steps[..n]), steps[n], c);
    }
  }

  lemma StepNames<R, S>(s: State<R, S>, e: Step<R, S>, c: Id)
    requires Inv(s)
    ensures Unnamed(Apply(s, e).hub.node, c) <==> Unnamed(s.hub.node, c) && !Names(s, e, c)
  {
    if Enabled(s, e) && e.Create? {
      assert HubWired(s.hub) && Tidy(s.hub.node);
      hide Inv, Tidy;
      CreateNames(s, e, c);
    } else {
      StepKept(s, e);
      SameRooms(s, e);
      hide Apply, Inv, Enabled;
      var n' := Apply(s, e).hub.node;
      forall q | q in s.hub.node.rooms ensures n'.rooms[q].address == s.hub.node.rooms[q].address {
        assert RoomKept(s.hub.node.rooms[q], n'.rooms[q]);
      }
    }
  }

  /** Whatever a Create step does to rooms. */
  lemma CreatedRooms<R, S>(s: State<R, S>, e: Step<R, S>)
    requires HubWired(s.hub) && Tidy(s.hub.node) && Enabled(s, e) && e.Create?
    ensures Apply(s, e).hub.node.rooms ==
            if Creates(s.hub, e.full, e.id, e.useSecret, e.secret)
            then s.hub.node.rooms[e.r := NewRoom(e.id, e.useSecret, e.secret, s.now)]
            else s.hub.node.rooms
  {
    if Creates(s.hub, e.full, e.id, e.useSecret, e.secret) {
      hide CreateRoom, Tidy;
      CreateEffect(s.hub, e.full, e.r, e.id, e.useSecret, e.secret, s.now);
    }
  }

  lemma CreateNames<R, S>(s: State<R, S>, e: Step<R, S>, c: Id)
    requires HubWired(s.hub) && Tidy(s.hub.node) && Enabled(s, e) && e.Create?
    ensures Unnamed(Apply(s, e).hub.node, c) <==> Unnamed(s.hub.node, c) && !Names(s, e, c)
  {
    CreatedRooms(s, e);
    hide Apply, Tidy;
    var rooms, rooms' := s.hub.node.rooms, Apply(s, e).hub.node.rooms;
    if Creates(s.hub, e.full, e.id, e.useSecret, e.secret) {
      assert rooms'[e.r].address == e.id;
      forall q | q in rooms ensures rooms'[q] == rooms[q] { }
    }
  }

  lemma SameRooms<R, S>(s: State<R, S>, e: Step<R, S>)
    requires HubWired(s.hub) && !(Enabled(s, e) && e.Create?)
    ensures Apply(s, e).hub.node.rooms.Keys == s.hub.node.rooms.Keys
  {
  }

  /** Two sessions of one room never see two broadcasts of that room in opposite orders: `s.got` numbers
      the broadcasts by the order in which the room took them. The numbers are all that was received,
      unless a room was made under one of the connections' ids. */
  lemma MembersAgree<R, S>(steps: seq<Step<R, S>>, t: S, u: S, i: nat, j: nat, i': nat, j': nat)
    requires var s := Run(steps);
             && t in s.hub.node.sess && u in s.hub.node.sess && t in s.got && u in s.got
             && i < j < |s.got[t]| && i' < |s.got[u]| && j' < |s.got[u]|
             && s.got[t][i] == s.got[u][i'] && s.got[t][j] == s.got[u][j']
    requires var s := Run(steps);
             && s.hub.node.sess[t].conn in s.clients && s.hub.node.sess[u].conn in s.clients
             && RoomOf(s.clients[s.hub.node.sess[t].conn].phase) == RoomOf(s.clients[s.hub.node.sess[u].conn].phase)
    ensures i' < j'
    ensures var s := Run(steps);
            var a, b := Broadcasts(s.hub.node.sess[t].inbox.placed), Broadcasts(s.hub.node.sess[u].inbox.placed);
            Unnamed(s.hub.node, s.hub.node.sess[t].conn) && Unnamed(s.hub.node, s.hub.node.sess[u].conn) ==>
              |a| == |s.got[t]| && |b| == |s.got[u]| && a[i] == b[i'] && a[j] == b[j']
  {
    var s := Run(steps);
    RunInv(steps);
    assert OrderInv(s, t) && OrderInv(s, u);
    assert s.got[t][i] < s.got[t][j];
  }

  // ---- exactly which broadcasts ----

  /** The numbers below `n` of the broadcasts due to connection `c`: those taken while it was a
      member, other than its own that do not include it. */
  function DueList(placed: seq<Message>, seen: seq<seq<Id>>, c: Id, n: nat): seq<nat>
    requires n <= |placed| && n <= |seen|
  {
    if n == 0 then []
    else if placed[n - 1].Broadcast? && c in Recipients(placed[n - 1], seen[n - 1]) then DueList(placed, seen, c, n - 1) + [n - 1]
    else DueList(placed, seen, c, n - 1)
  }

  lemma {:induction false} DueListPrefix(placed: seq<Message>, seen: seq<seq<Id>>, placed': seq<Message>, seen': seq<seq<Id>>, c: Id, n: nat)
    requires n <= |placed| && n <= |seen| && placed <= placed' && seen <= seen'
    ensures DueList(placed', seen', c, n) == DueList(placed, seen, c, n)
  {
    hide Recipients;
    if n == 0 {
    } else {
      assert placed'[n - 1] == placed[n - 1] && seen'[n - 1] == seen[n - 1];
      DueListPrefix(placed, seen, placed', seen', c, n - 1);
    }
  }

  lemma {:induction false} DueListNone(placed: seq<Message>, seen: seq<seq<Id>>, c: Id, n: nat)
    requires n <= |placed| && n <= |seen| && forall k :: 0 <= k < |seen| ==> c !in seen[k]
    ensures DueList(placed, seen, c, n) == []
  {
    if n == 0 {
    } else {
      DueListNone(placed, seen, c, n - 1);
    }
  }

  ghost predicate ExactAt<R, S>(s: State<R, S>, r: R, c: Id, got: seq<nat>) {
    && r in s.hub.node.rooms && r in s.seen && r in s.work
    && var b := s.hub.node.rooms[r].inbox;
    && b.taken <= |b.placed| && |s.seen[r]| == b.taken
    && (c in s.work[r] ==> 0 < b.taken)
    && got == DueList(b.placed, s.seen[r], c, if c in s.work[r] then b.taken - 1 else b.taken)
  }

  /** The broadcasts a session of connection `c` has received are exactly those due to it from room `r`. */
  ghost predicate Received<R, S>(s: State<R, S>, r: R, c: Id, received: seq<Message>) {
    && r in s.hub.node.rooms && r in s.seen && r in s.work
    && var b := s.hub.node.rooms[r].inbox;
    && b.taken <= |b.placed| && |s.seen[r]| == b.taken && (c in s.work[r] ==> 0 < b.taken)
    && var due := DueList(b.placed, s.seen[r], c, if c in s.work[r] then b.taken - 1 else b.taken);
    && Below(due, |b.placed|) && received == Picked(b.placed, due)
  }

  /** An open session has received every broadcast due to it, but for one still being handed out. */
  ghost predicate Exact<R, S>(s: State<R, S>, t: S) {
    t in s.hub.node.sess && s.hub.node.sess[t].status != Closed ==>
      var c := s.hub.node.sess[t].conn;
      c in s.clients && t in s.got && (RoomOf(s.clients[c].phase).Some? ==> ExactAt(s, RoomOf(s.clients[c].phase).value, c, s.got[t]))
  }

  /** The step does not lose a message on its way to session `t`: no timeout, no unreachable machine. */
  ghost predicate Lossless<R, S>(s: State<R, S>, e: Step<R, S>, t: S) {
    e.Deliver? && CanDeliver(s, e.r) && t in s.hub.node.sess
    && s.hub.node.sess[t].conn == s.work[e.r][0] && s.hub.node.sess[t].status != Closed
    ==> Reached(s, e.r, t)
  }

  ghost predicate LosslessRun<R, S>(steps: seq<Step<R, S>>, t: S) {
    forall i {:trigger Run(steps[..i])} :: 0 <= i < |steps| ==> Lossless(Run(steps[..i]), steps[i], t)
  }

  lemma ExactJoinable<R, S>(s: State<R, S>, c: Id, r: R)
    requires Inv(s) && r in s.hub.node.rooms && (c in s.clients ==> RoomOf(s.clients[c].phase) == None)
    ensures ExactAt(s, r, c, [])
  {
    assert RoomInv(s, r) && MemberInv(s, r, c) && RoomOk(s.hub.node, r);
    DueListNone(s.hub.node.rooms[r].inbox.placed, s.seen[r], c, s.hub.node.rooms[r].inbox.taken);
  }

  /** A step that takes and hands out nothing changes neither what is due nor what was received. */
  lemma QuietExact<R, S>(s: State<R, S>, e: Step<R, S>, r: R, c: Id, got: seq<nat>)
    requires Inv(s) && Enabled(s, e) && TakesNothing(e) && ExactAt(s, r, c, got)
    ensures ExactAt(Apply(s, e), r, c, got)
  {
    var s' := Apply(s, e);
    HubStepExtends(s, e);
    QuietWork(s, e, r);
    var b, b' := s.hub.node.rooms[r].inbox, s'.hub.node.rooms[r].inbox;
    assert RoomGrows(s.hub.node.rooms[r], s'.hub.node.rooms[r]);
    DueListPrefix(b.placed, s.seen[r], b'.placed, s.seen[r], c, if c in s.work[r] then b.taken - 1 else b.taken);
  }

  lemma QuietWork<R, S>(s: State<R, S>, e: Step<R, S>, r: R)
    requires HubWired(s.hub) && Enabled(s, e) && TakesNothing(e) && r in s.work && r in s.seen
    ensures var s' := Apply(s, e);
            r in s'.work && r in s'.seen && s'.work[r] == s.work[r] && s'.seen[r] == s.seen[r]
  {
  }

  lemma RoomOfStays<R, S>(s: State<R, S>, e: Step<R, S>, c: Id)
    requires HubWired(s.hub) && Enabled(s, e) && TakesNothing(e) && c in s.clients
    ensures c in Apply(s, e).clients
    ensures RoomOf(s.clients[c].phase).Some? ==> RoomOf(Apply(s, e).clients[c].phase) == RoomOf(s.clients[c].phase)
  {
  }

  lemma GotStays<R, S>(s: State<R, S>, e: Step<R, S>, t: S)
    requires HubWired(s.hub) && Enabled(s, e) && TakesNothing(e) && t in s.hub.node.sess && t in s.got
    ensures t in Apply(s, e).got && Apply(s, e).got[t] == s.got[t]
  {
  }

  lemma QuietExactStep<R, S>(s: State<R, S>, e: Step<R, S>, t: S)
    requires Inv(s) && Enabled(s, e) && TakesNothing(e) && Exact(s, t) && t in s.hub.node.sess
    ensures Exact(Apply(s, e), t)
  {
    var s' := Apply(s, e);
    HubStepExtends(s, e);
    assert SessionGrows(s.hub.node.sess[t], s'.hub.node.sess[t]);
    assert OrderInv(s, t);
    var c := s.hub.node.sess[t].conn;
    RoomOfStays(s, e, c);
    GotStays(s, e, t);
    if s'.hub.node.sess[t].status != Closed && RoomOf(s'.clients[c].phase).Some? {
      var r := RoomOf(s'.clients[c].phase).value;
      if RoomOf(s.clients[c].phase) == None {
        assert e.Joining? && r == s.hub.mapped[s.clients[c].target] by { JoinedNow(s, e, c); }
        assert MappedInv(s, s.clients[c].target);
        ExactJoinable(s, c, r);
      }
      QuietExact(s, e, r, c, s.got[t]);
    }
  }

  lemma JoinedNow<R, S>(s: State<R, S>, e: Step<R, S>, c: Id)
    requires HubWired(s.hub) && Enabled(s, e) && TakesNothing(e) && c in s.clients
    requires RoomOf(s.clients[c].phase) == None && RoomOf(Apply(s, e).clients[c].phase).Some?
    ensures e.Joining? && e.c == c && s.clients[c].target in s.hub.mapped
    ensures RoomOf(Apply(s, e).clients[c].phase).value == s.hub.mapped[s.clients[c].target]
  {
  }

  lemma BeginExact<R, S>(s: State<R, S>, q: R, r: R, c: Id, got: seq<nat>)
    requires Inv(s) && CanBegin(s, q) && ExactAt(s, r, c, got)
    ensures ExactAt(DoBegin(s, q), r, c, got)
  {
    hide RoomInv, MemberInv, ClientInv, MappedInv, OrderInv, Tidy;
    if q == r {
      var s' := DoBegin(s, r);
      var b := s.hub.node.rooms[r].inbox;
      assert c !in s.work[r];
      DueListPrefix(b.placed, s.seen[r], b.placed, s'.seen[r], c, b.taken);
    }
  }

  /** What is due does not change as messages are placed in the room's inbox. */
  lemma DueStays<R, S>(s: State<R, S>, s': State<R, S>, r: R, c: Id, n: nat)
    requires r in s.hub.node.rooms && r in s'.hub.node.rooms && r in s.seen && r in s'.seen && s'.seen[r] == s.seen[r]
    requires HeardOnly(s.hub.node.rooms[r], s'.hub.node.rooms[r])
    requires n <= |s.seen[r]| && n <= |s.hub.node.rooms[r].inbox.placed|
    ensures DueList(s'.hub.node.rooms[r].inbox.placed, s'.seen[r], c, n) == DueList(s.hub.node.rooms[r].inbox.placed, s.seen[r], c, n)
  {
    DueListPrefix(s.hub.node.rooms[r].inbox.placed, s.seen[r], s'.hub.node.rooms[r].inbox.placed, s'.seen[r], c, n);
  }

  /** The receiver of a hand-over gets what was due to it at that moment. */
  lemma DeliverToReceiver<R, S>(s: State<R, S>, q: R, t: S)
    requires Inv(s) && CanDeliver(s, q) && t in s.hub.node.sess && t in s.got && q in s.seen && Reached(s, q, t)
    requires ExactAt(s, q, s.hub.node.sess[t].conn, s.got[t])
    ensures var s' := DoDeliver(s, q);
            t in s'.got && ExactAt(s', q, s.hub.node.sess[t].conn, s'.got[t])
  {
    hide Emit, RoomInv, ClientInv, MappedInv, OrderInv, Tidy, Noted, Hears, HearsRoom;
    var s' := DoDeliver(s, q);
    var c, k := s.hub.node.sess[t].conn, s.hub.node.rooms[q].inbox.taken - 1;
    DeliverGot(s, q, t);
    DeliverFrame(s, q);
    DeliverRoom(s, q, q);
    assert c in s.work[q] && MemberInv(s, q, c);
    hide Recipients;
    assert s'.got[t] == DueList(s.hub.node.rooms[q].inbox.placed, s.seen[q], c, k + 1);
    DueStays(s, s', q, c, k + 1);
  }

  lemma DeliverToOther<R, S>(s: State<R, S>, q: R, r: R, t: S)
    requires Inv(s) && CanDeliver(s, q) && t in s.hub.node.sess && t in s.got
    requires s.hub.node.sess[t].conn != s.work[q][0] && ExactAt(s, r, s.hub.node.sess[t].conn, s.got[t])
    ensures var s' := DoDeliver(s, q);
            t in s'.got && ExactAt(s', r, s.hub.node.sess[t].conn, s'.got[t])
  {
    hide Emit, RoomInv, MemberInv, ClientInv, MappedInv, OrderInv, Tidy, Noted, Hears, HearsRoom, Recipients;
    var s' := DoDeliver(s, q);
    var c := s.hub.node.sess[t].conn;
    DeliverGot(s, q, t);
    assert s'.got[t] == s.got[t];
    DeliverFrame(s, q);
    DeliverRoom(s, q, r);
    DueStays(s, s', r, c, if c in s.work[r] then s.hub.node.rooms[r].inbox.taken - 1 else s.hub.node.rooms[r].inbox.taken);
  }

  lemma DeliverExact<R, S>(s: State<R, S>, q: R, r: R, t: S)
    requires Inv(s) && CanDeliver(s, q) && Lossless(s, Deliver(q), t) && t in s.hub.node.sess && t in s.got
    requires s.hub.node.sess[t].status != Closed && ExactAt(s, r, s.hub.node.sess[t].conn, s.got[t])
    requires Joined(s, s.hub.node.sess[t].conn, r)
    ensures var s' := DoDeliver(s, q);
            t in s'.got && ExactAt(s', r, s.hub.node.sess[t].conn, s'.got[t])
  {
    hide RoomInv, MemberInv, ClientInv, MappedInv, OrderInv, Tidy, ExactAt, DoDeliver;
    if s.hub.node.sess[t].conn == s.work[q][0] {
      DeliverFrame(s, q);
      assert RoomInv(s, q);
      SeenRoom(s, q);
      DeliverToReceiver(s, q, t);
    } else {
      DeliverToOther(s, q, r, t);
    }
  }

  lemma SeenRoom<R, S>(s: State<R, S>, q: R)
    requires Inv(s) && q in s.hub.node.rooms
    ensures q in s.seen
  {
    assert RoomInv(s, q);
  }

  lemma ExactStep<R, S>(s: State<R, S>, e: Step<R, S>, t: S)
    requires Inv(s) && Exact(s, t) && Lossless(s, e, t)
    ensures Exact(Apply(s, e), t)
  {
    if Enabled(s, e) {
      if t !in s.hub.node.sess {
        NewcomerExact(s, e, t);
      } else if TakesNothing(e) {
        QuietExactStep(s, e, t);
      } else {
        ConsumerExactStep(s, e, t);
      }
    }
  }

  lemma NewcomerExact<R, S>(s: State<R, S>, e: Step<R, S>, t: S)
    requires Inv(s) && Enabled(s, e) && t !in s.hub.node.sess
    ensures Exact(Apply(s, e), t)
  {
    var s' := Apply(s, e);
    StepKeeps(s, e);
    if t in s'.hub.node.sess {
      assert OrderInv(s', t);
      assert e.Register? && e.s == t && s'.hub.node.sess[t].conn == e.c && s'.clients[e.c].phase == Started(t) by { Newcomer(s, e, t); }
    }
  }

  lemma Newcomer<R, S>(s: State<R, S>, e: Step<R, S>, t: S)
    requires Inv(s) && Enabled(s, e) && t !in s.hub.node.sess && t in Apply(s, e).hub.node.sess
    ensures e.Register? && e.s == t
    ensures Apply(s, e).hub.node.sess[t].conn == e.c && e.c in Apply(s, e).clients && Apply(s, e).clients[e.c].phase == Started(t)
  {
    hide RoomInv, MemberInv, ClientInv, MappedInv, OrderInv, ListOk, SessionOk, RoomOk;
  }

  lemma ConsumerExactStep<R, S>(s: State<R, S>, e: Step<R, S>, t: S)
    requires Inv(s) && Enabled(s, e) && !TakesNothing(e) && Exact(s, t) && Lossless(s, e, t) && t in s.hub.node.sess
    ensures Exact(Apply(s, e), t)
  {
    hide RoomInv, MemberInv, ClientInv, MappedInv, Tidy, ExactAt, Reached;
    StepKept(s, e);
    assert SessionKept(s.hub.node.sess[t], Apply(s, e).hub.node.sess[t]);
    assert OrderInv(s, t);
    hide Kept, OrderInv;
    if s.hub.node.sess[t].status != Closed {
      if e.Begin? {
        BeginExactStep(s, e.r, t);
      } else if e.Deliver? {
        DeliverExactStep(s, e.r, t);
      } else {
        TakeExactStep(s, e, t);
      }
    }
  }

  lemma TakeExactStep<R, S>(s: State<R, S>, e: Step<R, S>, t: S)
    requires HubWired(s.hub) && e.Take? && Enabled(s, e) && Exact(s, t)
    requires t in s.hub.node.sess && s.hub.node.sess[t].status != Closed
    ensures Exact(Apply(s, e), t)
  {
  }

  lemma BeginExactStep<R, S>(s: State<R, S>, q: R, t: S)
    requires Inv(s) && CanBegin(s, q) && Exact(s, t) && t in s.hub.node.sess && s.hub.node.sess[t].status != Closed
    ensures Exact(DoBegin(s, q), t)
  {
    hide RoomInv, MemberInv, ClientInv, MappedInv, OrderInv, Tidy, ExactAt;
    var p := s.clients[s.hub.node.sess[t].conn].phase;
    if RoomOf(p).Some? { BeginExact(s, q, RoomOf(p).value, s.hub.node.sess[t].conn, s.got[t]); }
  }

  lemma DeliverExactStep<R, S>(s: State<R, S>, q: R, t: S)
    requires Inv(s) && CanDeliver(s, q) && Exact(s, t) && Lossless(s, Deliver(q), t)
    requires t in s.hub.node.sess && s.hub.node.sess[t].status != Closed
    ensures Exact(DoDeliver(s, q), t)
  {
    hide RoomInv, MemberInv, ClientInv, MappedInv, OrderInv, Tidy, ExactAt, Reached, DoDeliver, Lossless;
    var p := s.clients[s.hub.node.sess[t].conn].phase;
    DeliverGot(s, q, t);
    DeliverFrame(s, q);
    if RoomOf(p).Some? { DeliverExact(s, q, RoomOf(p).value, t); }
  }

  lemma {:induction false} ExactRun<R, S>(steps: seq<Step<R, S>>, t: S)
    requires LosslessRun(steps, t)
    ensures Exact(Run(steps), t)
    decreases |steps|
  {
    if steps == [] {
    } else {
      hide Lossless, Exact, Inv, Apply;
      var n := |steps| - 1;
      forall i | 0 <= i < n ensures Lossless(Run(steps[..n][..i]), steps[..n][i], t) {
        assert steps[..n][..i] == steps[..i];
        assert Lossless(Run(steps[..i]), steps[i], t);
      }
      ExactRun(steps[..n], t);
      RunInv(steps[..n]);
      assert Lossless(Run(steps[..n]), steps[n], t);
      ExactStep(Run(steps[..n]), steps[n], t);
    }
  }

  /** With no timeout and no unreachable machine on the way to it, an open session has received
      exactly the broadcasts its room took while it was a member, minus its own that leave it out
      and minus the one its room is still handing out, in the room's order, unless a room was made
      under the id of its connection. */
  lemma ExactDelivery<R, S>(steps: seq<Step<R, S>>, t: S)
    requires LosslessRun(steps, t)
    requires t in Run(steps).hub.node.sess && Run(steps).hub.node.sess[t].status != Closed
    requires Unnamed(Run(steps).hub.node, Run(steps).hub.node.sess[t].conn)
    ensures var s := Run(steps);
            var x := s.hub.node.sess[t];
            && x.conn in s.clients
            && var p := s.clients[x.conn].phase;
            RoomOf(p).Some? ==> Received(s, RoomOf(p).value, x.conn, Broadcasts(x.inbox.placed))
  {
    hide Run;
    hide RoomInv, MappedInv, MemberInv, ClientInv, Tidy;
    ExactRun(steps, t);
    RunInv(steps);
    assert OrderInv(Run(steps), t);
  }
}
