/** The cluster as a transition system: rooms, sessions, messages under way, clocks and sweeps.

    Each manager operation is one atomic step. A room's consumer is not: it takes a message and
    fixes the receivers in one step, then hands the message over one connection at a time, and
    any other step may come in between. A step that is not enabled leaves the state as it is.

    A connection gets an id nobody has used. A room gets the id its creator asks for, and that may be
    the id of a connection: the room then listens under the same address as that connection's sessions. */
module Cluster {
  import opened Messages
  import opened Nodes

  /** Where one WebSocket connection stands between connecting and the end of serveRoom. */
  datatype Phase<R, S> =
    | Connecting
    | Started(sess: S)                              // remoteRoom registered, join call not answered yet
    | Serving(sess: S, room: R)
    | Leaving(sess: S, room: R, told: bool)         // told: the leave call reached the room's manager
    | Gone(sess: S, room: R, told: bool)            // the remoteRoom was closed after that

  datatype Client<R, S> = Client(target: Id, phase: Phase<R, S>)

  /** `work[r]` are the connections still to get the message room `r` took last, `seen[r]` the
      member list at each take, and `got[s]` which of its room's messages session `s` received. */
  datatype State<R, S> = State(
    hub: Hub<R, S>, now: int, swept: int, clients: map<Id, Client<R, S>>,
    work: map<R, seq<Id>>, seen: map<R, seq<seq<Id>>>, got: map<S, seq<nat>>)

  datatype Step<R, S> =
    | Tick(d: nat)
    | Network(down: set<Id>)
    | Create(r: R, id: Id, useSecret: bool, secret: string, full: bool)
    | Remove(id: Id)
    | Sweeping(order: seq<R>)
    | Connect(c: Id, target: Id)
    | Register(c: Id, s: S)
    | Joining(c: Id, secret: string)
    | Departing(c: Id)
    | LeaveLost(c: Id)
    | EndSession(c: Id)
    | SendAll(c: Id, data: string, includeSelf: bool)
    | SendOne(c: Id, data: string, to: Id)
    | Begin(r: R)
    | Deliver(r: R)
    | Take(s: S)

  ghost function Initial<R, S>(): State<R, S> {
    State(Hub(Node(map[], map[], map[], {}), map[]), 0, 0, map[], map[], map[], map[])
  }

  ghost predicate Enumerates<R, S>(h: Hub<R, S>, order: seq<R>) {
    && Distinct(order)
    && (forall r :: r in order ==> r in h.mapped.Values)
    && (forall id :: id in h.mapped ==> h.mapped[id] in order)
  }

  ghost predicate Enabled<R, S>(s: State<R, S>, e: Step<R, S>) {
    var n := s.hub.node;
    match e
    case Tick(_) => true
    case Network(_) => true
    case Create(r, _, _, _, _) => r !in n.rooms && r !in s.work && r !in s.seen
    case Remove(_) => true
    case Sweeping(order) => Enumerates(s.hub, order)
    case Connect(c, _) => c !in s.clients && forall r :: r in n.rooms ==> n.rooms[r].address != c
    case Register(c, t) => c in s.clients && s.clients[c].phase.Connecting? && s.clients[c].target in s.hub.mapped && t !in n.sess
    case Joining(c, _) => c in s.clients && s.clients[c].phase.Started?
    case Departing(c) => c in s.clients && s.clients[c].phase.Serving?
    case LeaveLost(c) => c in s.clients && s.clients[c].phase.Serving?
    case EndSession(c) => c in s.clients && s.clients[c].phase.Leaving? && s.clients[c].phase.sess in n.sess
    case SendAll(c, _, _) => c in s.clients && s.clients[c].phase.Serving?
    case SendOne(c, _, _) => c in s.clients && s.clients[c].phase.Serving?
    case Begin(r) =>
      && r in n.rooms && r in s.work && r in s.seen && s.work[r] == []
      && n.rooms[r].inbox.taken < |n.rooms[r].inbox.placed|
    case Deliver(r) =>
      && r in n.rooms && r in s.work && s.work[r] != []
      && 0 < n.rooms[r].inbox.taken <= |n.rooms[r].inbox.placed|
    case Take(t) => t in n.sess && n.sess[t].inbox.taken < |n.sess[t].inbox.placed|
  }

  ghost function WithNode<R, S>(s: State<R, S>, n: Node<R, S>): State<R, S> {
    s.(hub := s.hub.(node := n))
  }

  ghost function SetPhase<R, S>(s: State<R, S>, c: Id, p: Phase<R, S>): State<R, S>
    requires c in s.clients
  {
    s.(clients := s.clients[c := s.clients[c].(phase := p)])
  }

  ghost function DoCreate<R, S>(s: State<R, S>, r: R, id: Id, useSecret: bool, secret: string, full: bool): (s': State<R, S>)
    requires HubWired(s.hub) && r !in s.hub.node.rooms
    ensures HubWired(s'.hub)
  {
    var s1 := s.(hub := CreateRoom(s.hub, full, r, id, useSecret, secret, s.now));
    if Creates(s.hub, full, id, useSecret, secret) then s1.(work := s.work[r := []], seen := s.seen[r := []]) else s1
  }

  ghost function DoSweep<R, S>(s: State<R, S>, order: seq<R>): (s': State<R, S>)
    requires HubWired(s.hub) && Enumerates(s.hub, order)
    ensures HubWired(s'.hub)
  {
    s.(hub := Sweep(s.hub, order, s.now), swept := s.now)
  }

  ghost function DoRegister<R, S>(s: State<R, S>, c: Id, t: S): (s': State<R, S>)
    requires HubWired(s.hub) && c in s.clients
    ensures HubWired(s'.hub)
  {
    SetPhase(WithNode(s, StartSession(s.hub.node, t, c, s.clients[c].target)), c, Started(t)).(got := s.got[t := []])
  }

  ghost function DoJoin<R, S>(s: State<R, S>, c: Id, secret: string): (s': State<R, S>)
    requires HubWired(s.hub) && c in s.clients && s.clients[c].phase.Started?
    ensures HubWired(s'.hub)
  {
    var target := s.clients[c].target;
    var p := if Joins(s.hub, target, secret) then Serving(s.clients[c].phase.sess, s.hub.mapped[target]) else Connecting;
    SetPhase(s.(hub := JoinRoom(s.hub, target, c, secret, s.now)), c, p)
  }

  ghost function DoLeave<R, S>(s: State<R, S>, c: Id): (s': State<R, S>)
    requires HubWired(s.hub) && c in s.clients && s.clients[c].phase.Serving?
    ensures HubWired(s'.hub)
  {
    var p := s.clients[c].phase;
    SetPhase(s.(hub := LeaveRoom(s.hub, s.clients[c].target, c, s.now)), c, Leaving(p.sess, p.room, true))
  }

  ghost function DoEnd<R, S>(s: State<R, S>, c: Id): (s': State<R, S>)
    requires HubWired(s.hub) && c in s.clients && s.clients[c].phase.Leaving? && s.clients[c].phase.sess in s.hub.node.sess
    ensures HubWired(s'.hub)
  {
    var p := s.clients[c].phase;
    SetPhase(WithNode(s, CloseSession(s.hub.node, p.sess)), c, Gone(p.sess, p.room, p.told))
  }

  ghost function DoEmit<R, S>(s: State<R, S>, a: Id, m: Message): (s': State<R, S>)
    requires HubWired(s.hub)
    ensures HubWired(s'.hub)
  {
    WithNode(s, Emit(s.hub.node, a, m))
  }

  /** The consumer takes the next message, refreshes the clock and reads the member list. */
  ghost function BeginRoom(x: Room, now: int): Room
    requires x.inbox.taken < |x.inbox.placed|
  {
    var m := x.inbox.placed[x.inbox.taken];
    x.(inbox := x.inbox.(taken := x.inbox.taken + 1), activeAt := if m.Unknown? then x.activeAt else now)
  }

  ghost function DoBegin<R, S>(s: State<R, S>, r: R): (s': State<R, S>)
    requires HubWired(s.hub) && r in s.hub.node.rooms && r in s.seen
    requires s.hub.node.rooms[r].inbox.taken < |s.hub.node.rooms[r].inbox.placed|
    ensures HubWired(s'.hub)
  {
    var x := s.hub.node.rooms[r];
    var m := x.inbox.placed[x.inbox.taken];
    WithNode(s, SetRoom(s.hub.node, r, BeginRoom(x, s.now)))
    .(work := s.work[r := Recipients(m, x.conns)], seen := s.seen[r := s.seen[r] + [x.conns]])
  }

  /** The message room `r` took last. */
  ghost function Current<R, S>(n: Node<R, S>, r: R): Message
    requires r in n.rooms && 0 < n.rooms[r].inbox.taken <= |n.rooms[r].inbox.placed|
  {
    n.rooms[r].inbox.placed[n.rooms[r].inbox.taken - 1]
  }

  /** Which sessions' histories grow when a room's message number `k` turns `n` into `n'`. */
  ghost function Noted<R, S>(got: map<S, seq<nat>>, n: Node<R, S>, n': Node<R, S>, k: nat): map<S, seq<nat>> {
    map t | t in got :: if t in n.sess && t in n'.sess && |n'.sess[t].inbox.placed| > |n.sess[t].inbox.placed|
                        then got[t] + [k] else got[t]
  }

  ghost function DoDeliver<R, S>(s: State<R, S>, r: R): (s': State<R, S>)
    requires HubWired(s.hub) && r in s.hub.node.rooms && r in s.work && s.work[r] != []
    requires 0 < s.hub.node.rooms[r].inbox.taken <= |s.hub.node.rooms[r].inbox.placed|
    ensures HubWired(s'.hub)
  {
    var n := s.hub.node;
    var m := Current(n, r);
    var n' := Emit(n, s.work[r][0], m);
    WithNode(s, n').(work := s.work[r := s.work[r][1..]],
                     got := if m.Broadcast? then Noted(s.got, n, n', n.rooms[r].inbox.taken - 1) else s.got)
  }

  ghost function DoTake<R, S>(s: State<R, S>, t: S): (s': State<R, S>)
    requires HubWired(s.hub) && t in s.hub.node.sess
    ensures HubWired(s'.hub)
  {
    var n := s.hub.node;
    var x := n.sess[t];
    WithNode(s, n.(sess := n.sess[t := x.(inbox := x.inbox.(taken := x.inbox.taken + 1))]))
  }

  ghost function Apply<R, S>(s: State<R, S>, e: Step<R, S>): (s': State<R, S>)
    requires HubWired(s.hub)
    ensures HubWired(s'.hub)
  {
    if !Enabled(s, e) then s
    else
      match e
      case Tick(d) => s.(now := s.now + d)
      case Network(down) => WithNode(s, s.hub.node.(down := down))
      case Create(r, id, useSecret, secret, full) => DoCreate(s, r, id, useSecret, secret, full)
      case Remove(id) => s.(hub := RemoveRoom(s.hub, id, s.now))
      case Sweeping(order) => DoSweep(s, order)
      case Connect(c, target) => s.(clients := s.clients[c := Client(target, Connecting)])
      case Register(c, t) => DoRegister(s, c, t)
      case Joining(c, secret) => DoJoin(s, c, secret)
      case Departing(c) => DoLeave(s, c)
      case LeaveLost(c) => SetPhase(s, c, Leaving(s.clients[c].phase.sess, s.clients[c].phase.room, false))
      case EndSession(c) => DoEnd(s, c)
      case SendAll(c, data, includeSelf) => DoEmit(s, s.clients[c].target, Broadcast(data, c, includeSelf))
      case SendOne(c, data, to) => DoEmit(s, to, Unicast(data, c, Some(to)))
      case Begin(r) => DoBegin(s, r)
      case Deliver(r) => DoDeliver(s, r)
      case Take(t) => DoTake(s, t)
  }

  /** Every reachable state of the cluster is `Run(steps)` for some steps. */
  ghost function Run<R, S>(steps: seq<Step<R, S>>): (s: State<R, S>)
    ensures HubWired(s.hub)
    decreases |steps|
  {
    if steps == [] then Initial() else Apply(Run(steps[..|steps| - 1]), steps[|steps| - 1])
  }
}
