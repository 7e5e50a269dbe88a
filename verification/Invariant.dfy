/** What holds in every reachable state of the cluster. */
module Invariant {
  import opened Messages
  import opened Nodes
  import opened Consistency
  import opened Cluster

  /** The room object a connection's join call succeeded on. */
  ghost function RoomOf<R, S>(p: Phase<R, S>): Option<R> {
    match p
    case Serving(_, r) => Some(r)
    case Leaving(_, r, _) => Some(r)
    case Gone(_, r, _) => Some(r)
    case _ => None
  }

  ghost predicate Joined<R, S>(s: State<R, S>, c: Id, r: R) {
    c in s.clients && RoomOf(s.clients[c].phase) == Some(r)
  }

  /** The connection is served, or has gone without its room being told. */
  ghost predicate Attending<R, S>(p: Phase<R, S>) {
    match p
    case Serving(_, _) => true
    case Leaving(_, _, told) => !told
    case Gone(_, _, told) => !told
    case _ => false
  }

  /** No room was ever made under the id `c`. */
  ghost predicate Unnamed<R, S>(n: Node<R, S>, c: Id) {
    forall r :: r in n.rooms ==> n.rooms[r].address != c
  }

  /** Only what clients send to a room is in its inbox. */
  predicate FromClients(ms: seq<Message>) {
    forall i :: 0 <= i < |ms| ==> ms[i].Broadcast? || ms[i].Unicast?
  }

  ghost predicate RoomInv<R, S>(s: State<R, S>, r: R)
    requires r in s.hub.node.rooms
  {
    var x := s.hub.node.rooms[r];
    && (x.status != Closed ==> x.address in s.hub.mapped && s.hub.mapped[x.address] == r)
    && (x.status == Init ==> x.conns == [])
    && r in s.work && r in s.seen && |s.seen[r]| == x.inbox.taken
    && Distinct(s.work[r])
    && (x.address !in s.clients ==> FromClients(x.inbox.placed))
  }

  ghost predicate MappedInv<R, S>(s: State<R, S>, id: Id)
    requires id in s.hub.mapped
  {
    var r := s.hub.mapped[id];
    r in s.hub.node.rooms && s.hub.node.rooms[r].status != Closed && s.hub.node.rooms[r].address == id
  }

  /** The connections of `r`'s list, of its past lists and of its receivers all joined `r`; those
      listed in an open room are attending. */
  ghost predicate MemberInv<R, S>(s: State<R, S>, r: R, c: Id)
    requires r in s.hub.node.rooms && r in s.work && r in s.seen
  {
    var x := s.hub.node.rooms[r];
    && (c in x.conns ==> Joined(s, c, r) && (x.status != Closed ==> Attending(s.clients[c].phase)))
    && (forall k :: 0 <= k < |s.seen[r]| && c in s.seen[r][k] ==> Joined(s, c, r))
    && (c in s.work[r] ==>
          && 0 < x.inbox.taken <= |x.inbox.placed| && |s.seen[r]| == x.inbox.taken
          && c in Recipients(x.inbox.placed[x.inbox.taken - 1], s.seen[r][x.inbox.taken - 1]))
  }

  ghost predicate ClientInv<R, S>(s: State<R, S>, c: Id)
    requires c in s.clients
  {
    var p := s.clients[c].phase;
    && (!p.Connecting? ==> p.sess in s.hub.node.sess && s.hub.node.sess[p.sess].conn == c)
    && (p.Started? ==> s.hub.node.sess[p.sess].status != Closed)
    && (p.Gone? ==> s.hub.node.sess[p.sess].status == Closed)
    && (RoomOf(p).Some? ==>
          && RoomOf(p).value in s.hub.node.rooms
          && s.hub.node.rooms[RoomOf(p).value].address == s.clients[c].target)
  }

  predicate Increasing(ks: seq<nat>) {
    forall i, j :: 0 <= i < j < |ks| ==> ks[i] < ks[j]
  }

  function Broadcasts(ms: seq<Message>): seq<Message> {
    if ms == [] then []
    else if ms[|ms| - 1].Broadcast? then Broadcasts(ms[..|ms| - 1]) + [ms[|ms| - 1]]
    else Broadcasts(ms[..|ms| - 1])
  }

  predicate Below(ks: seq<nat>, n: nat) {
    forall i :: 0 <= i < |ks| ==> ks[i] < n
  }

  function Picked(ms: seq<Message>, ks: seq<nat>): (r: seq<Message>)
    requires Below(ks, |ms|)
  {
    seq(|ks|, i requires 0 <= i < |ks| => ms[ks[i]])
  }

  /** `s.got[t]` numbers messages that `t`'s room took, in the order it took them. They are all the
      broadcasts `t` received, unless a room was made under its connection's id. */
  ghost predicate OrderInv<R, S>(s: State<R, S>, t: S)
    requires t in s.hub.node.sess
  {
    var x := s.hub.node.sess[t];
    && x.conn in s.clients && t in s.got && Increasing(s.got[t])
    && match RoomOf(s.clients[x.conn].phase)
       case None => s.got[t] == [] && (Unnamed(s.hub.node, x.conn) ==> Broadcasts(x.inbox.placed) == [])
       case Some(r) =>
         && r in s.hub.node.rooms && r in s.work
         && var b := s.hub.node.rooms[r].inbox;
         && b.taken <= |b.placed| && Below(s.got[t], b.taken)
         && (x.conn in s.work[r] ==> 0 < b.taken && Below(s.got[t], b.taken - 1))
         && (Unnamed(s.hub.node, x.conn) ==> Broadcasts(x.inbox.placed) == Picked(b.placed, s.got[t]))
  }

  ghost predicate Inv<R, S>(s: State<R, S>) {
    && HubWired(s.hub) && Tidy(s.hub.node)
    && (forall r {:trigger RoomInv(s, r)} :: r in s.hub.node.rooms ==> RoomInv(s, r))
    && (forall id {:trigger MappedInv(s, id)} :: id in s.hub.mapped ==> MappedInv(s, id))
    && (forall r, c {:trigger MemberInv(s, r, c)} ::
          r in s.hub.node.rooms && r in s.work && r in s.seen ==> MemberInv(s, r, c))
    && (forall c {:trigger ClientInv(s, c)} :: c in s.clients ==> ClientInv(s, c))
    && (forall t {:trigger OrderInv(s, t)} :: t in s.hub.node.sess ==> OrderInv(s, t))
  }
}
