/** Rooms made under the id of a connection. */
module Aliasing {
  import opened Messages
  import opened Nodes
  import opened Consistency
  import opened RoomEffects
  import opened Cluster
  import opened Invariant
  import opened Notices
  import opened Preservation
  import opened Ordering
  import opened Membership

  // A join that creates its room on demand asks for any id, so the id may be a connection's; the room
  // then shares that connection's address, and order and membership fail. These lemmas give the failing
  // runs and the check that rules them out.

  // ---- order ----

  function Longest(ms: seq<Message>): nat {
    if ms == [] then 0
    else Longest(ms[..|ms| - 1]) + if ms[|ms| - 1].Broadcast? then |ms[|ms| - 1].data| else 0
  }

  lemma {:induction false} NotLonger(ms: seq<Message>, i: nat)
    requires i < |ms| && ms[i].Broadcast?
    ensures |ms[i].data| <= Longest(ms)
  {
    if i == |ms| - 1 {
    } else {
      NotLonger(ms[..|ms| - 1], i);
    }
  }

  /** Data no message of the list has. */
  function Unseen(ms: seq<Message>): string {
    seq(Longest(ms) + 1, _ => 'x')
  }

  lemma UnseenIsNew(ms: seq<Message>, from: Id, includeSelf: bool)
    ensures Broadcast(Unseen(ms), from, includeSelf) !in ms
  {
    forall i | 0 <= i < |ms| ensures ms[i] != Broadcast(Unseen(ms), from, includeSelf) {
      if ms[i].Broadcast? { NotLonger(ms, i); }
    }
  }

  lemma StrangerBreaks(xs: seq<Message>, ys: seq<Message>, m: Message)
    requires m !in ys
    ensures !SubsequenceOf(xs + [m], ys)
  {
    assert (xs + [m])[|xs|] == m;
    forall ks: seq<nat> | Below(ks, |ys|) ensures Picked(ys, ks) != xs + [m] {
      assert forall y :: y in Picked(ys, ks) ==> y in ys;
      assert m in xs + [m];
    }
  }

  /** What one broadcast to its connection's address does to a session. */
  lemma SendAllHeard<R, S>(s: State<R, S>, t: S, c: Id, data: string, includeSelf: bool)
    requires Inv(s) && t in s.hub.node.sess && c in s.clients && s.clients[c].phase.Serving?
    ensures var s', x := Apply(s, SendAll(c, data, includeSelf)), s.hub.node.sess[t];
            && s'.clients == s.clients && t in s'.hub.node.sess
            && s'.hub.node.sess[t] == Hears(x, [s.clients[c].target], Broadcast(data, c, includeSelf), s.hub.node.down)
            && forall q :: q in s.hub.node.rooms ==> q in s'.hub.node.rooms && HeardOnly(s.hub.node.rooms[q], s'.hub.node.rooms[q])
  {
    hide RoomInv, MemberInv, ClientInv, MappedInv, OrderInv, ListOk, SessionOk, RoomOk, Emit, Hears, HearsRoom;
    var a, m := s.clients[c].target, Broadcast(data, c, includeSelf);
    EmitOnTidy(s.hub.node, a, m);
    forall q | q in s.hub.node.rooms
      ensures q in DoEmit(s, a, m).hub.node.rooms && HeardOnly(s.hub.node.rooms[q], DoEmit(s, a, m).hub.node.rooms[q])
    {
      EmitGrowsRoom(s, a, m, q);
    }
  }

  /** A broadcast to another address leaves a session in order. */
  lemma SendAllElsewhere<R, S>(s: State<R, S>, t: S, c: Id, data: string, includeSelf: bool)
    requires Inv(s) && t in s.hub.node.sess && InOrder(s, t)
    requires c in s.clients && s.clients[c].phase.Serving? ==> s.clients[c].target != s.hub.node.sess[t].conn
    ensures t in Apply(s, SendAll(c, data, includeSelf)).hub.node.sess && InOrder(Apply(s, SendAll(c, data, includeSelf)), t)
  {
    if c in s.clients && s.clients[c].phase.Serving? {
      SendAllHeard(s, t, c, data, includeSelf);
      hide Apply, RoomInv, MemberInv, ClientInv, MappedInv, OrderInv, ListOk, SessionOk, RoomOk, SubsequenceOf, Broadcasts;
      var s', x := Apply(s, SendAll(c, data, includeSelf)), s.hub.node.sess[t];
      if RoomOf(s.clients[x.conn].phase).Some? {
        var r := RoomOf(s.clients[x.conn].phase).value;
        assert Dequeued(s'.hub.node.rooms[r].inbox) == Dequeued(s.hub.node.rooms[r].inbox);
      }
    }
  }

  /** What the consumer of the room of session `t` has taken so far. */
  ghost function Taken<R, S>(s: State<R, S>, t: S): seq<Message>
    requires t in s.hub.node.sess && s.hub.node.sess[t].conn in s.clients
  {
    var p := RoomOf(s.clients[s.hub.node.sess[t].conn].phase);
    if p.Some? && p.value in s.hub.node.rooms && s.hub.node.rooms[p.value].inbox.taken <= |s.hub.node.rooms[p.value].inbox.placed|
    then Dequeued(s.hub.node.rooms[p.value].inbox) else []
  }

  /** A session that got a broadcast its room never took is out of order. */
  lemma StrangerDisorders<R, S>(s: State<R, S>, t: S, got: seq<Message>, m: Message)
    requires t in s.hub.node.sess && s.hub.node.sess[t].inbox.placed == got + [m] && m.Broadcast?
    requires s.hub.node.sess[t].conn in s.clients && m !in Taken(s, t)
    ensures !InOrder(s, t)
  {
    hide SubsequenceOf, Broadcasts;
    BroadcastsAppend(got, m);
    StrangerBreaks(Broadcasts(got), Taken(s, t), m);
  }

  lemma TakenStays<R, S>(s: State<R, S>, s': State<R, S>, t: S)
    requires t in s.hub.node.sess && s.hub.node.sess[t].conn in s.clients && t in s'.hub.node.sess
    requires s'.clients == s.clients && s'.hub.node.sess[t].conn == s.hub.node.sess[t].conn && OrderInv(s, t)
    requires forall q :: q in s.hub.node.rooms ==> q in s'.hub.node.rooms && HeardOnly(s.hub.node.rooms[q], s'.hub.node.rooms[q])
    ensures Taken(s', t) == Taken(s, t)
  {
    var p := RoomOf(s.clients[s.hub.node.sess[t].conn].phase);
    if p.Some? {
      var b, b' := s.hub.node.rooms[p.value].inbox, s'.hub.node.rooms[p.value].inbox;
      assert HeardOnly(s.hub.node.rooms[p.value], s'.hub.node.rooms[p.value]);
      assert b'.placed[..b.taken] == b.placed[..b.taken];
    }
  }

  /** A broadcast to its own connection's address, which its room never took, breaks a session's order. */
  lemma SendAllBreaks<R, S>(s: State<R, S>, t: S, c: Id) returns (data: string)
    requires Inv(s) && t in s.hub.node.sess && Hearing(s.hub.node.sess[t], 1, s.hub.node.down)
    requires c in s.clients && s.clients[c].phase.Serving? && s.clients[c].target == s.hub.node.sess[t].conn
    ensures t in Apply(s, SendAll(c, data, true)).hub.node.sess && !InOrder(Apply(s, SendAll(c, data, true)), t)
  {
    assert OrderInv(s, t);
    assert s.hub.node.sess[t].conn in s.clients;
    hide RoomInv, MemberInv, ClientInv, MappedInv, OrderInv, ListOk, SessionOk, RoomOk, Apply, InOrder, Unseen, Taken, HeardOnly;
    data := Unseen(Taken(s, t));
    UnseenIsNew(Taken(s, t), c, true);
    SendAllHeard(s, t, c, data, true);
    TakenStays(s, Apply(s, SendAll(c, data, true)), t);
    StrangerDisorders(Apply(s, SendAll(c, data, true)), t, s.hub.node.sess[t].inbox.placed, Broadcast(data, c, true));
  }

  /** The exact condition, checkable before each send: no broadcast can put a listening session out of
      order exactly when no served connection's room has the id of that session's connection. */
  lemma OrderSafeIff<R, S>(s: State<R, S>, t: S)
    requires Inv(s) && t in s.hub.node.sess && InOrder(s, t) && Hearing(s.hub.node.sess[t], 1, s.hub.node.down)
    ensures (forall c, data, includeSelf ::
               t in Apply(s, SendAll(c, data, includeSelf)).hub.node.sess && InOrder(Apply(s, SendAll(c, data, includeSelf)), t))
       <==> (forall c :: c in s.clients && s.clients[c].phase.Serving? ==> s.clients[c].target != s.hub.node.sess[t].conn)
  {
    hide RoomInv, MemberInv, ClientInv, MappedInv, OrderInv, ListOk, SessionOk, RoomOk, Apply, InOrder, Hearing;
    if c :| c in s.clients && s.clients[c].phase.Serving? && s.clients[c].target == s.hub.node.sess[t].conn {
      var data := SendAllBreaks(s, t, c);
    } else {
      forall c, data, includeSelf
        ensures t in Apply(s, SendAll(c, data, includeSelf)).hub.node.sess && InOrder(Apply(s, SendAll(c, data, includeSelf)), t)
      {
        SendAllElsewhere(s, t, c, data, includeSelf);
      }
    }
  }

  // ---- arriving ----

  /** A new connection `c` comes with session `t`, is registered, and joins room `id`. */
  ghost function Arrived<R, S>(s: State<R, S>, id: Id, c: Id, t: S): (s': State<R, S>)
    requires HubWired(s.hub)
    ensures HubWired(s'.hub)
  {
    Apply(Apply(Apply(s, Connect(c, id)), Register(c, t)), Joining(c, ""))
  }

  ghost predicate CanArrive<R, S>(s: State<R, S>, id: Id, c: Id, t: S) {
    && HubWired(s.hub) && id in s.hub.mapped && !s.hub.node.rooms[s.hub.mapped[id]].useSecret
    && c !in s.clients && Unnamed(s.hub.node, c) && t !in s.hub.node.sess
  }

  /** Connected and registered, about to join. */
  ghost function Waiting<R, S>(s: State<R, S>, id: Id, c: Id, t: S): (s': State<R, S>)
    requires CanArrive(s, id, c, t)
    ensures HubWired(s'.hub) && s' == Apply(Apply(s, Connect(c, id)), Register(c, t))
    ensures s'.clients == s.clients[c := Client(id, Started(t))]
    ensures s'.hub.mapped == s.hub.mapped && s'.hub.node.rooms == s.hub.node.rooms && s'.hub.node.down == s.hub.node.down
    ensures s'.hub.node.sess == s.hub.node.sess[t := Session(c, id, Init, 0, EMPTY_INBOX)]
    ensures s'.work == s.work && s'.seen == s.seen && s'.now == s.now
  {
    assert s.clients[c := Client(id, Connecting)][c := Client(id, Started(t))] == s.clients[c := Client(id, Started(t))];
    Apply(Apply(s, Connect(c, id)), Register(c, t))
  }

  lemma WaitingInv<R, S>(s: State<R, S>, id: Id, c: Id, t: S)
    requires Inv(s) && CanArrive(s, id, c, t)
    ensures Inv(Waiting(s, id, c, t))
  {
    hide RoomInv, MemberInv, ClientInv, MappedInv, OrderInv, ListOk, SessionOk, RoomOk, Apply;
    StepKeeps(s, Connect(c, id));
    StepKeeps(Apply(s, Connect(c, id)), Register(c, t));
  }

  /** `s'` is `s` with connection `c` served by session `t` and on room `r`'s list, which the members hear. */
  ghost predicate Served<R, S>(s: State<R, S>, s': State<R, S>, r: R, c: Id, client: Client<R, S>, n: Node<R, S>) {
    && r in n.rooms
    && s'.hub.mapped == s.hub.mapped && s'.work == s.work && s'.seen == s.seen
    && s'.clients == s.clients[c := client]
    && Sends(n, s'.hub.node, r,
             n.rooms[r].(conns := n.rooms[r].conns + [c], activeAt := s.now, status := Running), n.rooms[r].conns + [c], Join(c))
  }

  lemma JoinServed<R, S>(s: State<R, S>, c: Id, t: S, r: R)
    requires Inv(s) && c in s.clients && s.clients[c].phase == Started(t) && Joins(s.hub, s.clients[c].target, "")
    requires r == s.hub.mapped[s.clients[c].target]
    ensures Served(s, Apply(s, Joining(c, "")), r, c, s.clients[c].(phase := Serving(t, r)), s.hub.node)
  {
    assert MappedInv(s, s.clients[c].target);
    NotListed(s, c);
    JoinStep(s, c);
    hide RoomInv, MemberInv, ClientInv, OrderInv, MappedInv, ListOk, SessionOk, RoomOk, Sends, RoomJoin, Apply;
    JoinEffect(s.hub.node, r, c, "", s.now);
  }

  lemma JoinStep<R, S>(s: State<R, S>, c: Id)
    requires HubWired(s.hub) && c in s.clients && s.clients[c].phase.Started?
    ensures Apply(s, Joining(c, "")) == DoJoin(s, c, "")
  {
    hide JoinRoom;
  }

  /** The node with the session of an arriving connection, before its join. */
  ghost function Before<R, S>(s: State<R, S>, id: Id, c: Id, t: S): Node<R, S> {
    s.hub.node.(sess := s.hub.node.sess[t := Session(c, id, Init, 0, EMPTY_INBOX)])
  }

  lemma Arrival<R, S>(s: State<R, S>, id: Id, c: Id, t: S)
    requires Inv(s) && CanArrive(s, id, c, t)
    ensures Inv(Arrived(s, id, c, t))
    ensures Served(s, Arrived(s, id, c, t), s.hub.mapped[id], c, Client(id, Serving(t, s.hub.mapped[id])), Before(s, id, c, t))
  {
    WaitingInv(s, id, c, t);
    assert MappedInv(s, id);
    var s2, r := Waiting(s, id, c, t), s.hub.mapped[id];
    hide RoomInv, MemberInv, ClientInv, OrderInv, MappedInv, ListOk, SessionOk, RoomOk, Sends, Apply, Waiting;
    StepKeeps(s2, Joining(c, ""));
    JoinServed(s2, c, t, r);
    ServedFrom(s, s2, Arrived(s, id, c, t), r, c, Client(id, Started(t)), Client(id, Serving(t, r)), Before(s, id, c, t));
  }

  lemma ServedFrom<R, S>(
    s: State<R, S>, s2: State<R, S>, s': State<R, S>, r: R, c: Id, started: Client<R, S>, client: Client<R, S>, n: Node<R, S>)
    requires Served(s2, s', r, c, client, s2.hub.node)
    requires s2.hub.mapped == s.hub.mapped && s2.work == s.work && s2.seen == s.seen && s2.now == s.now
    requires s2.clients == s.clients[c := started]
    requires n.rooms == s2.hub.node.rooms && n.sess == s2.hub.node.sess && n.down == s2.hub.node.down
    ensures Served(s, s', r, c, client, n)
  {
    hide Sends;
    SendsSame(s2.hub.node, n, s'.hub.node, r,
              n.rooms[r].(conns := n.rooms[r].conns + [c], activeAt := s.now, status := Running), n.rooms[r].conns + [c], Join(c));
    assert s.clients[c := started][c := client] == s.clients[c := client];
  }

  /** The listener table is no part of what is sent. */
  lemma SendsSame<R, S>(n: Node<R, S>, n1: Node<R, S>, n': Node<R, S>, r: R, x: Room, cs: seq<Id>, m: Message)
    requires Sends(n, n', r, x, cs, m) && n1.rooms == n.rooms && n1.sess == n.sess && n1.down == n.down
    ensures Sends(n1, n', r, x, cs, m)
  {
  }

  // ---- a room forced under a connection's id ----

  /** Room object `r` is made under the id `v`, and a new connection `c` joins it. */
  ghost function Forced<R, S>(s: State<R, S>, v: Id, r: R, c: Id, t: S): (s': State<R, S>)
    requires HubWired(s.hub)
    ensures HubWired(s'.hub)
  {
    Arrived(Apply(s, Create(r, v, false, "", false)), v, c, t)
  }

  /** `v` is a connection whose id no open room has; `r`, `c` and `t` are new. */
  ghost predicate CanForce<R, S>(s: State<R, S>, v: Id, r: R, c: Id, t: S) {
    && HubWired(s.hub) && v in s.clients && v !in s.hub.mapped
    && r !in s.hub.node.rooms && r !in s.work && r !in s.seen
    && c !in s.clients && Unnamed(s.hub.node, c) && t !in s.hub.node.sess
  }

  ghost function Made<R, S>(s: State<R, S>, v: Id, r: R): (s': State<R, S>)
    requires HubWired(s.hub) && r !in s.hub.node.rooms && r !in s.work && r !in s.seen
    ensures HubWired(s'.hub) && s' == Apply(s, Create(r, v, false, "", false))
    ensures s' == DoCreate(s, r, v, false, "", false)
  {
    Apply(s, Create(r, v, false, "", false))
  }

  lemma MadeEffect<R, S>(s: State<R, S>, v: Id, r: R)
    requires Inv(s) && v !in s.hub.mapped && r !in s.hub.node.rooms && r !in s.work && r !in s.seen
    ensures var s1 := Made(s, v, r);
            && Inv(s1) && s1.hub.mapped == s.hub.mapped[v := r] && s1.clients == s.clients && s1.now == s.now
            && s1.work == s.work[r := []] && s1.seen == s.seen[r := []]
            && s1.hub.node.rooms == s.hub.node.rooms[r := NewRoom(v, false, "", s.now)]
            && s1.hub.node.sess == s.hub.node.sess && s1.hub.node.down == s.hub.node.down
  {
    hide RoomInv, MemberInv, ClientInv, OrderInv, MappedInv, ListOk, SessionOk, RoomOk, Apply;
    StepKeeps(s, Create(r, v, false, "", false));
    CreateEffect(s.hub, false, r, v, false, "", s.now);
  }

  /** The forced room once its creator is in it. */
  function Alias(v: Id, c: Id, now: int): Room {
    NewRoom(v, false, "", now).(conns := [c], status := Running)
  }

  /** Nothing else changes: the other rooms and all earlier sessions are as they were. */
  ghost predicate ForcedInto<R, S>(s: State<R, S>, s': State<R, S>, v: Id, r: R, c: Id, t: S) {
    && s'.hub.mapped == s.hub.mapped[v := r] && s'.work == s.work[r := []] && s'.seen == s.seen[r := []]
    && s'.clients == s.clients[c := Client(v, Serving(t, r))] && s'.hub.node.down == s.hub.node.down
    && s'.hub.node.rooms == s.hub.node.rooms[r := Alias(v, c, s.now)]
    && (forall u :: u in s.hub.node.sess ==> u in s'.hub.node.sess && s'.hub.node.sess[u] == s.hub.node.sess[u])
    && t in s'.hub.node.sess && s'.hub.node.sess[t].conn == c && s'.hub.node.sess[t].status != Closed
    && |s'.hub.node.sess[t].inbox.placed| <= 1 && s'.hub.node.sess[t].inbox.taken == 0
  }

  lemma ForcedEffect<R, S>(s: State<R, S>, v: Id, r: R, c: Id, t: S)
    requires Inv(s) && CanForce(s, v, r, c, t)
    ensures Inv(Forced(s, v, r, c, t)) && ForcedInto(s, Forced(s, v, r, c, t), v, r, c, t)
  {
    MadeEffect(s, v, r);
    var s1 := Made(s, v, r);
    forall q | q in s1.hub.node.rooms ensures s1.hub.node.rooms[q].address != c {
      if q != r { assert q in s.hub.node.rooms; }
    }
    forall u | u in s.hub.node.sess ensures s.hub.node.sess[u].conn != c { assert OrderInv(s, u); }
    hide RoomInv, MemberInv, ClientInv, OrderInv, MappedInv, ListOk, SessionOk, RoomOk, Arrived, Made, Sends;
    Arrival(s1, v, c, t);
    ForcedRooms(s, s1, Forced(s, v, r, c, t), v, r, c, t);
  }

  lemma ForcedRooms<R, S>(s: State<R, S>, s1: State<R, S>, s': State<R, S>, v: Id, r: R, c: Id, t: S)
    requires s1.hub.mapped == s.hub.mapped[v := r] && s1.clients == s.clients && s1.now == s.now
    requires s1.work == s.work[r := []] && s1.seen == s.seen[r := []]
    requires s1.hub.node.rooms == s.hub.node.rooms[r := NewRoom(v, false, "", s.now)]
    requires s1.hub.node.sess == s.hub.node.sess && s1.hub.node.down == s.hub.node.down
    requires Unnamed(s1.hub.node, c) && t !in s.hub.node.sess
    requires forall u :: u in s.hub.node.sess ==> s.hub.node.sess[u].conn != c
    requires Served(s1, s', r, c, Client(v, Serving(t, r)), Before(s1, v, c, t))
    ensures ForcedInto(s, s', v, r, c, t)
  {
    var n, x := Before(s1, v, c, t), Alias(v, c, s.now);
    assert n.rooms[r].conns + [c] == [c];
    forall q | q in s'.hub.node.rooms ensures s'.hub.node.rooms[q] == if q == r then x else s.hub.node.rooms[q] {
      assert s1.hub.node.rooms[q].address != c;
    }
    assert s'.hub.node.rooms == s.hub.node.rooms[r := x];
  }

  ghost function ForcedSteps<R, S>(v: Id, r: R, c: Id, t: S): seq<Step<R, S>> {
    [Create(r, v, false, "", false), Connect(c, v), Register(c, t), Joining(c, "")]
  }

  lemma RunForced<R, S>(steps: seq<Step<R, S>>, v: Id, r: R, c: Id, t: S)
    ensures Run(steps + ForcedSteps(v, r, c, t)) == Forced(Run(steps), v, r, c, t)
  {
    hide Run, Apply;
    var a, b := steps + [Create(r, v, false, "", false)], steps + [Create(r, v, false, "", false)] + [Connect(c, v)];
    RunSnoc(steps, Create(r, v, false, "", false));
    RunSnoc(a, Connect(c, v));
    RunSnoc(b, Register(c, t));
    RunSnoc(b + [Register(c, t)], Joining(c, ""));
    assert steps + ForcedSteps(v, r, c, t) == b + [Register(c, t)] + [Joining(c, "")];
  }

  /** From every run: once a join forces a room under the id of a connection whose session is listening,
      one broadcast to that room puts the session out of order. */
  lemma ForcedJoinBreaksOrder<R, S>(steps: seq<Step<R, S>>, t: S, r: R, c: Id, t2: S) returns (data: string)
    requires t in Run(steps).hub.node.sess && Hearing(Run(steps).hub.node.sess[t], 1, Run(steps).hub.node.down)
    requires CanForce(Run(steps), Run(steps).hub.node.sess[t].conn, r, c, t2)
    ensures var s' := Run(steps + ForcedSteps(Run(steps).hub.node.sess[t].conn, r, c, t2) + [SendAll(c, data, true)]);
            t in s'.hub.node.sess && !InOrder(s', t)
  {
    var s := Run(steps);
    var v := s.hub.node.sess[t].conn;
    RunInv(steps);
    RunForced(steps, v, r, c, t2);
    ForcedEffect(s, v, r, c, t2);
    hide Run, Apply, Forced, RoomInv, MemberInv, ClientInv, OrderInv, MappedInv, ListOk, SessionOk, RoomOk;
    data := SendAllBreaks(Forced(s, v, r, c, t2), t, c);
    RunSnoc(steps + ForcedSteps(v, r, c, t2), SendAll(c, data, true));
  }
}
