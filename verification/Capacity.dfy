/** CreateRoom's capacity check. */
module Capacity {
  // When several calls interleave, the check, the look-up and the insertion are separate steps, each under
  // its own lock.

  type RoomId = nat

  datatype Creator = Checking(id: RoomId) | Finding(id: RoomId) | Adding(id: RoomId)

  /** `mapped` are the keys of roomsMap, `calls` the CreateRoom calls under way. */
  datatype Manager = Manager(mapped: set<RoomId>, calls: map<nat, Creator>)

  datatype Step =
    | Enter(p: nat, id: RoomId)
    | Check(p: nat)
    | Find(p: nat)
    | Add(p: nat)
    | Fail(p: nat)
    | Remove(id: RoomId)

  /** `max` is maxRoomSize, and at most `k` calls are ever under way together. */
  function Apply(m: Manager, e: Step, max: nat, k: nat): Manager {
    match e
    case Enter(p, id) => if p in m.calls || |m.calls| >= k then m else m.(calls := m.calls[p := Checking(id)])
    case Check(p) =>
      if p !in m.calls || !m.calls[p].Checking? then m
      else if |m.mapped| >= max then m.(calls := m.calls - {p})
      else m.(calls := m.calls[p := Finding(m.calls[p].id)])
    case Find(p) =>
      if p !in m.calls || !m.calls[p].Finding? then m
      else if m.calls[p].id in m.mapped then m.(calls := m.calls - {p})
      else m.(calls := m.calls[p := Adding(m.calls[p].id)])
    case Add(p) =>
      if p !in m.calls || !m.calls[p].Adding? then m
      else Manager(m.mapped + {m.calls[p].id}, m.calls - {p})
    case Fail(p) => m.(calls := m.calls - {p})
    case Remove(id) => m.(mapped := m.mapped - {id})
  }

  function Run(steps: seq<Step>, max: nat, k: nat): Manager
    decreases |steps|
  {
    if steps == [] then Manager({}, map[])
    else Apply(Run(steps[..|steps| - 1], max, k), steps[|steps| - 1], max, k)
  }

  /** The calls that have passed the capacity check. */
  function Past(m: Manager): set<nat> {
    set p | p in m.calls && !m.calls[p].Checking?
  }

  predicate Bounded(m: Manager, max: nat, k: nat) {
    |m.calls| <= k && |m.mapped| + |Past(m)| <= max + k - 1
  }

  lemma SubsetSize<T>(a: set<T>, b: set<T>)
    requires a <= b
    ensures |a| <= |b|
  {
    assert b == a + (b - a);
  }

  lemma CheckBounded(m: Manager, p: nat, max: nat, k: nat)
    requires k >= 1 && Bounded(m, max, k) && p in m.calls && m.calls[p].Checking? && |m.mapped| < max
    ensures Bounded(m.(calls := m.calls[p := Finding(m.calls[p].id)]), max, k)
  {
    var m' := m.(calls := m.calls[p := Finding(m.calls[p].id)]);
    assert m'.calls.Keys == m.calls.Keys;
    assert Past(m') == Past(m) + {p};
    assert |m.calls| == |m.calls.Keys| && |m'.calls| == |m'.calls.Keys|;
    SubsetSize(Past(m'), m.calls.Keys);
  }

  /** A call that returns without adding a room. */
  lemma ReturnBounded(m: Manager, p: nat, max: nat, k: nat)
    requires Bounded(m, max, k)
    ensures Bounded(m.(calls := m.calls - {p}), max, k)
  {
    var m' := m.(calls := m.calls - {p});
    assert |m.calls| == |m.calls.Keys| && |m'.calls| == |m'.calls.Keys|;
    SubsetSize(m'.calls.Keys, m.calls.Keys);
    SubsetSize(Past(m'), Past(m));
  }

  lemma AddBounded(m: Manager, p: nat, max: nat, k: nat)
    requires Bounded(m, max, k) && p in m.calls && m.calls[p].Adding?
    ensures Bounded(Manager(m.mapped + {m.calls[p].id}, m.calls - {p}), max, k)
  {
    var m' := Manager(m.mapped + {m.calls[p].id}, m.calls - {p});
    ReturnBounded(m, p, max, k);
    assert Past(m') == Past(m) - {p} && p in Past(m);
  }

  lemma EnterBounded(m: Manager, p: nat, id: RoomId, max: nat, k: nat)
    requires Bounded(m, max, k) && p !in m.calls && |m.calls| < k
    ensures Bounded(m.(calls := m.calls[p := Checking(id)]), max, k)
  {
    assert Past(m.(calls := m.calls[p := Checking(id)])) == Past(m);
  }

  lemma RemoveBounded(m: Manager, id: RoomId, max: nat, k: nat)
    requires Bounded(m, max, k)
    ensures Bounded(m.(mapped := m.mapped - {id}), max, k)
  {
    SubsetSize(m.mapped - {id}, m.mapped);
    assert Past(m.(mapped := m.mapped - {id})) == Past(m);
  }

  lemma FoundBounded(m: Manager, p: nat, max: nat, k: nat)
    requires Bounded(m, max, k) && p in m.calls && m.calls[p].Finding?
    ensures Bounded(m.(calls := m.calls[p := Adding(m.calls[p].id)]), max, k)
  {
    assert Past(m.(calls := m.calls[p := Adding(m.calls[p].id)])) == Past(m);
  }

  lemma StepBounded(m: Manager, e: Step, max: nat, k: nat)
    requires k >= 1 && Bounded(m, max, k)
    ensures Bounded(Apply(m, e, max, k), max, k)
  {
    match e
    case Enter(p, id) => if p !in m.calls && |m.calls| < k { EnterBounded(m, p, id, max, k); }
    case Check(p) =>
      ReturnBounded(m, p, max, k);
      if p in m.calls && m.calls[p].Checking? && |m.mapped| < max { CheckBounded(m, p, max, k); }
    case Find(p) =>
      ReturnBounded(m, p, max, k);
      if p in m.calls && m.calls[p].Finding? { FoundBounded(m, p, max, k); }
    case Add(p) => if p in m.calls && m.calls[p].Adding? { AddBounded(m, p, max, k); }
    case Fail(p) => ReturnBounded(m, p, max, k);
    case Remove(id) => RemoveBounded(m, id, max, k);
  }

  /** However up to `k` calls interleave with each other and with removals, the mapped rooms and the
      calls past the check together never exceed max + k - 1; one call at a time keeps the limit. */
  lemma {:induction false} NeverAbove(steps: seq<Step>, max: nat, k: nat)
    requires k >= 1
    ensures |Run(steps, max, k).mapped| + |Past(Run(steps, max, k))| <= max + k - 1
    ensures Bounded(Run(steps, max, k), max, k)
    decreases |steps|
  {
    if steps == [] {
      assert Past(Run(steps, max, k)) == {};
    } else {
      NeverAbove(steps[..|steps| - 1], max, k);
      StepBounded(Run(steps[..|steps| - 1], max, k), steps[|steps| - 1], max, k);
    }
  }

  // ---- the bound is reached ----

  ghost predicate Reached(m: Manager, max: nat, k: nat) {
    exists steps :: Run(steps, max, k) == m
  }

  lemma Reach(m: Manager, e: Step, max: nat, k: nat)
    requires Reached(m, max, k)
    ensures Reached(Apply(m, e, max, k), max, k)
  {
    var steps :| Run(steps, max, k) == m;
    assert (steps + [e])[..|steps|] == steps;
    assert Run(steps + [e], max, k) == Apply(m, e, max, k);
  }

  /** A call for a new room while the map is below the limit gets past both checks. */
  lemma Pass(mapped: set<RoomId>, calls: map<nat, Creator>, p: nat, id: RoomId, max: nat, k: nat)
    requires Reached(Manager(mapped, calls), max, k)
    requires |mapped| < max && |calls| < k && p !in calls && id !in mapped
    ensures Reached(Manager(mapped, calls[p := Adding(id)]), max, k)
  {
    Reach(Manager(mapped, calls), Enter(p, id), max, k);
    Reach(Manager(mapped, calls[p := Checking(id)]), Check(p), max, k);
    Reach(Manager(mapped, calls[p := Checking(id)][p := Finding(id)]), Find(p), max, k);
    assert calls[p := Checking(id)][p := Finding(id)][p := Adding(id)] == calls[p := Adding(id)];
  }

  /** One call after the other fills the manager up to `n` rooms. */
  lemma {:induction false} Fill(n: nat, max: nat, k: nat) returns (mapped: set<RoomId>)
    requires n <= max && k >= 1
    ensures Reached(Manager(mapped, map[]), max, k)
    ensures |mapped| == n && forall id :: id in mapped ==> id < n
  {
    if n == 0 {
      mapped := {};
      assert Run([], max, k) == Manager({}, map[]);
    } else {
      var before := Fill(n - 1, max, k);
      Pass(before, map[], 0, n - 1, max, k);
      Reach(Manager(before, map[0 := Adding(n - 1)]), Add(0), max, k);
      assert map[0 := Adding(n - 1)] - {0} == map[];
      mapped := before + {n - 1};
    }
  }

  /** Calls 0 to `j` - 1 are past both checks, each about to add its own room. */
  predicate Waiting(calls: map<nat, Creator>, from: nat, i: nat, j: nat) {
    forall p: nat :: i <= p < j ==> p in calls && calls[p] == Adding(from + p)
  }

  predicate Below<T>(xs: map<nat, T>, n: nat) {
    |xs| == n && forall p :: p in xs ==> p < n
  }

  lemma WaitingLess(calls: map<nat, Creator>, from: nat, i: nat, j: nat)
    requires Waiting(calls, from, i, j)
    ensures Waiting(calls - {i}, from, i + 1, j)
  {
  }

  lemma WaitingMore(calls: map<nat, Creator>, from: nat, j: nat)
    requires Waiting(calls, from, 0, j) && Below(calls, j)
    ensures Waiting(calls[j := Adding(from + j)], from, 0, j + 1) && Below(calls[j := Adding(from + j)], j + 1)
  {
  }

  /** `j` further calls all pass the checks before any of them adds its room. */
  lemma {:induction false} Crowd(from: nat, j: nat, k: nat) returns (mapped: set<RoomId>, calls: map<nat, Creator>)
    requires j <= k && k >= 1
    ensures Reached(Manager(mapped, calls), from + 1, k)
    ensures |mapped| == from && forall id :: id in mapped ==> id < from
    ensures Waiting(calls, from, 0, j) && Below(calls, j)
  {
    hide Apply;
    hide Run;
    if j == 0 {
      mapped := Fill(from, from + 1, k);
      calls := map[];
    } else {
      var before;
      mapped, before := Crowd(from, j - 1, k);
      Pass(mapped, before, j - 1, from + (j - 1), from + 1, k);
      WaitingMore(before, from, j - 1);
      calls := before[j - 1 := Adding(from + (j - 1))];
    }
  }

  /** Then `i` of them add theirs. */
  lemma {:induction false} Overfill(from: nat, i: nat, k: nat) returns (mapped: set<RoomId>, calls: map<nat, Creator>)
    requires i <= k && k >= 1
    ensures Reached(Manager(mapped, calls), from + 1, k)
    ensures |mapped| == from + i && forall id :: id in mapped ==> id < from + i
    ensures Waiting(calls, from, i, k)
  {
    if i == 0 {
      mapped, calls := Crowd(from, k, k);
    } else {
      var before, waiting := Overfill(from, i - 1, k);
      assert waiting[i - 1] == Adding(from + (i - 1));
      assert Apply(Manager(before, waiting), Add(i - 1), from + 1, k) == Manager(before + {from + (i - 1)}, waiting - {i - 1});
      Reach(Manager(before, waiting), Add(i - 1), from + 1, k);
      WaitingLess(waiting, from, i - 1, k);
      mapped, calls := before + {from + (i - 1)}, waiting - {i - 1};
    }
  }

  /** The configured maximum holds in every run exactly when calls never overlap: with `k` calls
      under way, max + k - 1 rooms can be mapped, and never more. */
  lemma LimitHoldsIffAlone(max: nat, k: nat)
    requires max >= 1 && k >= 1
    ensures (forall steps :: |Run(steps, max, k).mapped| <= max) <==> k == 1
    ensures exists steps :: |Run(steps, max, k).mapped| == max + k - 1
  {
    var mapped, calls := Overfill(max - 1, k, k);
    var steps :| Run(steps, max, k) == Manager(mapped, calls);
    assert |Run(steps, max, k).mapped| == max + k - 1;
    if k == 1 {
      forall steps ensures |Run(steps, max, k).mapped| <= max { NeverAbove(steps, max, k); }
    }
  }
}
