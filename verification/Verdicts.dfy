/** Which rooms a judgement spares, and why the others close. */
module Verdicts {
  import opened Messages
  import opened Nodes
  import opened Consistency
  import opened Cluster
  import opened Invariant
  import opened Notices
  import opened Preservation
  import opened Membership

  const ONE_MINUTE := 60 * 1_000_000_000

  /** The limits, in nanoseconds: an hour for every room, five idle minutes for a running one, one idle
      minute for an empty running one, and one minute for one nobody has joined. */
  predicate Spared(x: Room, now: int) {
    && now - x.createdAt <= 60 * ONE_MINUTE
    && (x.status == Running ==> now - x.activeAt <= 5 * ONE_MINUTE)
    && (x.status == Running && x.conns == [] ==> now - x.activeAt <= ONE_MINUTE)
    && (x.status == Init && x.conns == [] ==> now - x.createdAt <= ONE_MINUTE)
  }

  /** The reason that goes with the limit a room exceeds; the limits for empty rooms come first, and the
      age limit last. */
  predicate Because(x: Room, now: int, why: CloseReason) {
    && (why == NoUseInitRoom <==> x.status == Init && x.conns == [] && now - x.createdAt > ONE_MINUTE)
    && (why == NoUserRoom <==> x.status == Running && x.conns == [] && now - x.activeAt > ONE_MINUTE)
    && (why == NoUseRoom <==> x.status == Running && x.conns != [] && now - x.activeAt > 5 * ONE_MINUTE)
    && why != NoReason
  }

  lemma VerdictMeans(x: Room, now: int)
    requires x.status != Closed
    ensures Verdict(x, now).None? <==> Spared(x, now)
    ensures Verdict(x, now).Some? ==> Because(x, now, Verdict(x, now).value)
  {
  }

  /** The id still leads to room `r`, which is open with the same members. */
  ghost predicate Stays<R, S>(s: State<R, S>, s': State<R, S>, id: Id, r: R) {
    && id in s'.hub.mapped && s'.hub.mapped[id] == r && r in s.hub.node.rooms && r in s'.hub.node.rooms
    && s'.hub.node.rooms[r].status == s.hub.node.rooms[r].status && s'.hub.node.rooms[r].conns == s.hub.node.rooms[r].conns
  }

  /** The id leads nowhere, and room `r` is closed. */
  ghost predicate Goes<R, S>(s': State<R, S>, id: Id, r: R) {
    id !in s'.hub.mapped && r in s'.hub.node.rooms && s'.hub.node.rooms[r].status == Closed
  }

  lemma {:induction false} SweepMapped<R, S>(h: Hub<R, S>, order: seq<R>, now: int)
    requires HubWired(h) && forall r :: r in order ==> r in h.node.rooms
    ensures forall id :: id in Sweep(h, order, now).mapped ==> id in h.mapped && Sweep(h, order, now).mapped[id] == h.mapped[id]
    decreases |order|
  {
    if order == [] {
    } else {
      hide RoomClose, Judged, ShouldRemove;
      SweepMapped(Reap(h, order[0], now), order[1..], now);
    }
  }

  /** A mapped room after a step that adds nothing to the registry: mapped still if open, else gone. */
  lemma OpenOrGone<R, S>(s: State<R, S>, s': State<R, S>, id: Id, r: R)
    requires Inv(s) && Inv(s') && id in s.hub.mapped && s.hub.mapped[id] == r && r in s'.hub.node.rooms
    requires s'.hub.node.rooms[r].address == s.hub.node.rooms[r].address
    requires id in s'.hub.mapped ==> s'.hub.mapped[id] == r
    ensures if s'.hub.node.rooms[r].status != Closed then id in s'.hub.mapped else id !in s'.hub.mapped
  {
    assert MappedInv(s, id) && RoomInv(s', r);
    if id in s'.hub.mapped { assert MappedInv(s', id); }
  }

  lemma SweepOutcome<R, S>(s: State<R, S>, order: seq<R>, id: Id)
    requires Inv(s) && Enumerates(s.hub, order) && id in s.hub.mapped
    ensures var s', r := DoSweep(s, order), s.hub.mapped[id];
            var x := s.hub.node.rooms[r];
            && (if Verdict(x, s.now).None? then Stays(s, s', id, r) else Goes(s', id, r) && s'.hub.node.rooms[r].why == Verdict(x, s.now).value)
  {
    hide RoomInv, MemberInv, ClientInv, OrderInv, ListOk, SessionOk, RoomOk, Sweep, Verdict;
    var s', r := DoSweep(s, order), s.hub.mapped[id];
    assert MappedInv(s, id) && r in order;
    OrderOpen(s, order);
    SweepEffect(s, order, r);
    SweepStepKeeps(s, order);
    SweepMapped(s.hub, order, s.now);
    hide Inv;
    OpenOrGone(s, s', id, r);
  }

  /** The exact condition, over the clocks and members of the room alone: a sweep leaves a mapped room
      mapped, open and with its members exactly when it is within its limits; otherwise the room is
      unmapped and closed, and records the reason of the limit it exceeded. */
  lemma SweepSparesIff<R, S>(steps: seq<Step<R, S>>, order: seq<R>, id: Id)
    requires Enabled(Run(steps), Sweeping(order)) && id in Run(steps).hub.mapped
    ensures var s, s' := Run(steps), Run(steps + [Sweeping(order)]);
            var r := s.hub.mapped[id];
            var x := s.hub.node.rooms[r];
            && (Stays(s, s', id, r) <==> Spared(x, s.now))
            && (!Spared(x, s.now) ==> Goes(s', id, r) && Because(x, s.now, s'.hub.node.rooms[r].why))
  {
    var s := Run(steps);
    RunInv(steps);
    RunSnoc(steps, Sweeping(order));
    assert MappedInv(s, id);
    hide Run, Inv, Verdict;
    VerdictMeans(s.hub.node.rooms[s.hub.mapped[id]], s.now);
    SweepOutcome(s, order, id);
  }

  /** And the members that can hear it are told so: five idle minutes before one hour of age. */
  lemma SweepTellsWhy<R, S>(steps: seq<Step<R, S>>, order: seq<R>, id: Id, t: S)
    requires Enabled(Run(steps), Sweeping(order)) && id in Run(steps).hub.mapped
    requires var s := Run(steps);
             var x := s.hub.node.rooms[s.hub.mapped[id]];
             && !Spared(x, s.now) && t in s.hub.node.sess && s.hub.node.sess[t].conn in x.conns
             && Hearing(s.hub.node.sess[t], 1, s.hub.node.down)
    ensures var s, s' := Run(steps), Run(steps + [Sweeping(order)]);
            var x := s.hub.node.rooms[s.hub.mapped[id]];
            && t in s'.hub.node.sess && s'.hub.node.sess[t].status == Closed
            && s'.hub.node.sess[t].inbox.placed == s.hub.node.sess[t].inbox.placed
               + [Close(id, if s.now - x.activeAt > 5 * ONE_MINUTE then NoUseRoom else MaxTimeRoom)]
  {
    var s := Run(steps);
    var r := s.hub.mapped[id];
    RunInv(steps);
    RunSnoc(steps, Sweeping(order));
    assert MappedInv(s, id) && RoomInv(s, r) && r in order;
    VerdictMeans(s.hub.node.rooms[r], s.now);
    hide Run, Inv, Verdict, Apply;
    StepCloses(s, Sweeping(order), r, t);
  }

  lemma LeaveOutcome<R, S>(s: State<R, S>, c: Id)
    requires Inv(s) && c in s.clients && s.clients[c].phase.Serving? && s.clients[c].target in s.hub.mapped
    ensures var s', id := Apply(s, Departing(c)), s.clients[c].target;
            var r := s.hub.mapped[id];
            var y := Left(s.hub.node.rooms[r], c, s.now);
            && r in s'.hub.node.rooms
            && (if Verdict(y, s.now).None?
                then id in s'.hub.mapped && s'.hub.mapped[id] == r && s'.hub.node.rooms[r].status == y.status && s'.hub.node.rooms[r].conns == y.conns
                else Goes(s', id, r) && s'.hub.node.rooms[r].why == Verdict(y, s.now).value)
  {
    hide RoomInv, MemberInv, ClientInv, OrderInv, Tidy, LeaveRoom, Verdict;
    var s', id := Apply(s, Departing(c)), s.clients[c].target;
    var r := s.hub.mapped[id];
    assert MappedInv(s, id);
    LeaveRoomKeeps(s, id, c);
    StepKeeps(s, Departing(c));
    assert HeardOnly(Swept(Left(s.hub.node.rooms[r], c, s.now), s.now), s'.hub.node.rooms[r]);
    hide Inv;
    OpenOrGone(s, s', id, r);
  }

  /** The same for the judgement after a leave, which comes after the leave has refreshed the activity
      clock: the room stays, with the other members, exactly when it is at most an hour old and, if nobody
      has joined it, at most a minute. */
  lemma LeaveSparesIff<R, S>(steps: seq<Step<R, S>>, c: Id)
    requires c in Run(steps).clients && Run(steps).clients[c].phase.Serving? && Run(steps).clients[c].target in Run(steps).hub.mapped
    ensures var s, s', id := Run(steps), Run(steps + [Departing(c)]), Run(steps).clients[c].target;
            var r := s.hub.mapped[id];
            var x := s.hub.node.rooms[r];
            var stays := s.now - x.createdAt <= 60 * ONE_MINUTE && (x.status == Init ==> s.now - x.createdAt <= ONE_MINUTE);
            && (stays ==>
                  && id in s'.hub.mapped && s'.hub.mapped[id] == r && r in s'.hub.node.rooms
                  && s'.hub.node.rooms[r].status == x.status
                  && forall d :: d in s'.hub.node.rooms[r].conns <==> d in x.conns && d != c)
            && (!stays ==>
                  && Goes(s', id, r)
                  && s'.hub.node.rooms[r].why == if x.status == Init then NoUseInitRoom else MaxTimeRoom)
  {
    var s := Run(steps);
    RunInv(steps);
    RunSnoc(steps, Departing(c));
    var r := s.hub.mapped[s.clients[c].target];
    assert MappedInv(s, s.clients[c].target) && RoomInv(s, r);
    hide Run, Inv, Verdict, Apply;
    VerdictMeans(Left(s.hub.node.rooms[r], c, s.now), s.now);
    LeaveOutcome(s, c);
  }

  /** The members that stay and can hear it are told of the leave and then of the age limit. */
  lemma LeaveTellsWhy<R, S>(steps: seq<Step<R, S>>, c: Id, t: S)
    requires c in Run(steps).clients && Run(steps).clients[c].phase.Serving? && Run(steps).clients[c].target in Run(steps).hub.mapped
    requires var s := Run(steps);
             var x := s.hub.node.rooms[s.hub.mapped[s.clients[c].target]];
             && s.now - x.createdAt > 60 * ONE_MINUTE
             && t in s.hub.node.sess && s.hub.node.sess[t].conn in x.conns && s.hub.node.sess[t].conn != c
             && Hearing(s.hub.node.sess[t], 2, s.hub.node.down)
    ensures var s, s' := Run(steps), Run(steps + [Departing(c)]);
            && t in s'.hub.node.sess && s'.hub.node.sess[t].status == Closed
            && s'.hub.node.sess[t].inbox.placed == s.hub.node.sess[t].inbox.placed
               + [Message.Leave(c), Close(s.clients[c].target, MaxTimeRoom)]
  {
    var s := Run(steps);
    RunInv(steps);
    RunSnoc(steps, Departing(c));
    var r := s.hub.mapped[s.clients[c].target];
    assert MappedInv(s, s.clients[c].target) && RoomInv(s, r);
    VerdictMeans(Left(s.hub.node.rooms[r], c, s.now), s.now);
    hide Run, Inv, Verdict, Apply;
    StepCloses(s, Departing(c), r, t);
  }
}
