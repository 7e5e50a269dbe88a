/** Cleaning by size and by age. */
module Retention {
  import opened Messages
  import opened Tables
  import opened LogStore

  // What a pass removes, when it stops, and where repetition leads.

  /** Rows of one answer: distinct live rows of `rows`. */
  ghost predicate Snapshot(rows: seq<Row>, logs: seq<Row>) {
    && (forall i :: 0 <= i < |logs| ==> logs[i].id < |rows| && logs[i] == rows[logs[i].id] && logs[i].live)
    && (forall i, j :: 0 <= i < j < |logs| ==> logs[i].id != logs[j].id)
  }

  lemma WindowSnapshot(rows: seq<Row>, order: seq<Row>, cutoff: Option<int>, newestFirst: bool)
    requires Numbered(rows) && Ordered(rows, order, cutoff, newestFirst)
    ensures Snapshot(rows, Window(order, BATCH))
  {
    var logs := Window(order, BATCH);
    forall i | 0 <= i < |logs| ensures logs[i].id < |rows| && logs[i] == rows[logs[i].id] && logs[i].live {
      assert logs[i] == order[i] && order[i] in order && Asked(order[i], cutoff);
      var k :| 0 <= k < |rows| && rows[k] == order[i];
    }
  }

  // ---- by size ----

  /** The rows numbered in `paid` were live at the start and are gone, so what is owed is an honest
      account of the total: rows removed along with them only help. */
  ghost predicate Account(was: seq<Row>, s: Store, paid: set<nat>, owed: int, max: int) {
    && Faded(was, s.rows)
    && (forall k :: k in paid ==> k < |was| && was[k].live && !s.rows[k].live)
    && owed == Total(was) - max - Paid(was, paid)
  }

  lemma PayOne(was: seq<Row>, s: Store, paid: set<nat>, owed: int, max: int, l: Row)
    requires Sane(s) && Account(was, s, paid, owed, max)
    requires l.id < |was| && l == was[l.id] && l.live && l.id !in paid && l.fileId != ""
    ensures Account(was, DeleteFile(s, l.fileId, Done).0, paid + {l.id}, owed - l.size, max)
  {
    var s' := DeleteFile(s, l.fileId, Done).0;
    PaidMore(was, paid, l.id);
    ForgetFades(s.rows, l.fileId);
    FadedTwice(was, s.rows, s'.rows);
    assert s.rows[l.id].fileId == l.fileId;
  }

  lemma AccountSettles(was: seq<Row>, s: Store, paid: set<nat>, owed: int, max: int)
    requires Account(was, s, paid, owed, max) && forall x :: x in was ==> x.status == Saved
    ensures Total(s.rows) <= max + owed
  {
    PaidOff(was, s.rows, paid);
  }

  lemma AccountSame(was: seq<Row>, s: Store, s': Store, paid: set<nat>, owed: int, max: int)
    requires Account(was, s, paid, owed, max) && s'.rows == s.rows
    ensures Account(was, s', paid, owed, max)
  {
  }

  lemma {:induction false} AccountKept(was: seq<Row>, s: Store, logs: seq<Row>, i: nat, owed: int, faults: seq<Deletion>, paid: set<nat>, max: int)
    requires i <= |logs| && Sane(s) && Snapshot(was, logs) && Account(was, s, paid, owed, max)
    requires forall x :: x in was ==> x.status == Saved && x.fileId != ""
    requires forall j :: i <= j < |logs| ==> logs[j].id !in paid
    ensures var (s', owed') := CleanOldest(s, logs, i, owed, faults); Total(s'.rows) <= max + owed'
    decreases |logs| - i
  {
    hide Account, Faded;
    if i == |logs| || owed <= 0 {
      AccountSettles(was, s, paid, owed, max);
    } else {
      var l := logs[i];
      assert l in was;
      SaneDelete(s, l.fileId, At(faults, i));
      var (s1, ok) := DeleteFile(s, l.fileId, At(faults, i));
      if ok {
        PayOne(was, s, paid, owed, max, l);
        AccountKept(was, s1, logs, i + 1, owed - l.size, faults, paid + {l.id}, max);
      } else {
        AccountSame(was, s, s1, paid, owed, max);
        AccountKept(was, s1, logs, i + 1, owed, faults, paid, max);
      }
    }
  }

  /** Whatever rows share files and whatever deletions fail, the Saved total after a size pass is at
      most the limit plus what the pass still thinks is owed; so when it stops because nothing more is
      owed, the total is within the limit. */
  lemma SizeHonest(s: Store, max: int, order: seq<Row>, faults: seq<Deletion>)
    requires Sane(s) && Ordered(s.rows, order, None, false)
    ensures var (s', owed) := CleanBySize(s, max, order, faults);
            Total(s'.rows) <= max + owed && (owed <= 0 ==> Total(s'.rows) <= max)
  {
    if Total(s.rows) >= max {
      WindowSnapshot(s.rows, order, None, false);
      PaidNothing(s.rows);
      AccountKept(s.rows, s, Window(order, BATCH), 0, Total(s.rows) - max, faults, {}, max);
    }
  }

  // ---- which rows a size pass deletes ----

  /** The sizes of the first `j` rows of an answer, which is what the pass counts as paid. */
  function Credited(logs: seq<Row>, j: nat): nat
    requires j <= |logs|
  {
    if j == 0 then 0 else Credited(logs, j - 1) + logs[j - 1].size
  }

  /** Where a failure-free pass stops: at the first place where the sizes before it pay what is owed. */
  function Stop(logs: seq<Row>, owed: int, i: nat): (k: nat)
    requires i <= |logs|
    ensures i <= k <= |logs|
    ensures forall j :: i <= j < k ==> Credited(logs, j) < owed
    ensures k < |logs| ==> Credited(logs, k) >= owed
    decreases |logs| - i
  {
    if i == |logs| || Credited(logs, i) >= owed then i else Stop(logs, owed, i + 1)
  }

  lemma {:induction false} CreditedGrows(logs: seq<Row>, i: nat, j: nat)
    requires i <= j <= |logs|
    ensures Credited(logs, i) <= Credited(logs, j)
    decreases j
  {
    if i == j {
    } else {
      CreditedGrows(logs, i, j - 1);
    }
  }

  /** The files of the first `j` rows of an answer. */
  function Files(logs: seq<Row>, j: nat): set<string>
    requires j <= |logs|
  {
    if j == 0 then {} else Files(logs, j - 1) + {logs[j - 1].fileId}
  }

  lemma {:induction false} FilesAre(logs: seq<Row>, j: nat, id: string)
    requires j <= |logs|
    ensures id in Files(logs, j) <==> exists k :: 0 <= k < j && logs[k].fileId == id
    decreases j
  {
    if j == 0 {
    } else {
      FilesAre(logs, j - 1, id);
      if logs[j - 1].fileId == id {
        assert 0 <= j - 1 < j && logs[j - 1].fileId == id;
      }
    }
  }

  /** The store after the first `j` of `logs` have been deleted. */
  function Dropped(s: Store, logs: seq<Row>, j: nat): Store
    requires j <= |logs|
  {
    if j == 0 then s else DeleteFile(Dropped(s, logs, j - 1), logs[j - 1].fileId, Done).0
  }

  lemma {:induction false} DroppedRows(s: Store, logs: seq<Row>, j: nat)
    requires j <= |logs| && forall l :: l in logs ==> l.fileId != ""
    ensures Dropped(s, logs, j).rows == Clear(s.rows, Files(logs, j))
    decreases j
  {
    if j == 0 {
      assert Clear(s.rows, {}) == s.rows;
    } else {
      DroppedRows(s, logs, j - 1);
      assert logs[j - 1] in logs;
      ForgetClear(s.rows, Files(logs, j - 1), logs[j - 1].fileId);
    }
  }

  lemma DroppedTotal(s: Store, logs: seq<Row>, j: nat)
    requires j <= |logs| && forall l :: l in logs ==> l.fileId != ""
    ensures Total(Dropped(s, logs, j).rows) == Total(s.rows) - Holding(s.rows, Files(logs, j))
  {
    DroppedRows(s, logs, j);
    ClearTotal(s.rows, Files(logs, j));
  }

  lemma {:induction false} CleanOldestDrops(s: Store, logs: seq<Row>, i: nat, owed: int)
    requires i <= |logs| && forall l :: l in logs ==> l.fileId != ""
    ensures CleanOldest(Dropped(s, logs, i), logs, i, owed - Credited(logs, i), []).0 == Dropped(s, logs, Stop(logs, owed, i))
    decreases |logs| - i
  {
    if i == |logs| || Credited(logs, i) >= owed {
    } else {
      assert logs[i] in logs;
      CleanOldestDrops(s, logs, i + 1, owed);
      assert Credited(logs, i + 1) == Credited(logs, i) + logs[i].size;
      assert Dropped(s, logs, i + 1) == DeleteFile(Dropped(s, logs, i), logs[i].fileId, Done).0;
    }
  }

  lemma WindowFiles(s: Store, order: seq<Row>)
    requires Sane(s) && Ordered(s.rows, order, None, false)
    ensures forall l :: l in Window(order, BATCH) ==> l.fileId != ""
  {
    forall l | l in Window(order, BATCH) ensures l.fileId != "" { assert l in order; }
  }

  /** Which rows a failure-free size pass deletes is decided by the sizes of the answer alone. */
  lemma SizesDecide(s: Store, max: int, order: seq<Row>)
    requires Sane(s) && Ordered(s.rows, order, None, false)
    ensures var logs := Window(order, BATCH);
            CleanBySize(s, max, order, []).0 == Dropped(s, logs, Stop(logs, Total(s.rows) - max, 0))
  {
    WindowFiles(s, order);
    CleanOldestDrops(s, Window(order, BATCH), 0, Total(s.rows) - max);
  }

  /** Every deletion of the pass happens while the total is still above the limit. */
  ghost predicate NoneInVain(s: Store, max: int, logs: seq<Row>, k: nat)
    requires k <= |logs|
  {
    forall j :: 0 <= j < k ==> Total(Dropped(s, logs, j).rows) > max
  }

  /** As long as the sizes of the answer do not pay what is owed, neither do the bytes that the files of
      the same rows account for; to be read off the tables before the pass. */
  ghost predicate SizesTell(rows: seq<Row>, owed: int, logs: seq<Row>) {
    forall j :: 0 <= j < |logs| && Credited(logs, j) < owed ==> Holding(rows, Files(logs, j)) < owed
  }

  lemma NeededIff(s: Store, max: int, logs: seq<Row>, j: nat)
    requires j < |logs| && forall l :: l in logs ==> l.fileId != ""
    ensures j < Stop(logs, Total(s.rows) - max, 0) <==> Credited(logs, j) < Total(s.rows) - max
    ensures Total(Dropped(s, logs, j).rows) > max <==> Holding(s.rows, Files(logs, j)) < Total(s.rows) - max
  {
    hide Dropped, Total, Holding, Files, Stop, Credited;
    var k := Stop(logs, Total(s.rows) - max, 0);
    DroppedTotal(s, logs, j);
    if k <= j { CreditedGrows(logs, k, j); }
  }

  /** A failure-free size pass deletes no more than needed exactly when no other row of a file it deletes
      makes up for what the sizes still leave owed. */
  lemma NoMoreThanNeededIff(s: Store, max: int, order: seq<Row>)
    requires Sane(s) && Ordered(s.rows, order, None, false)
    ensures var logs, owed := Window(order, BATCH), Total(s.rows) - max;
            NoneInVain(s, max, logs, Stop(logs, owed, 0)) <==> SizesTell(s.rows, owed, logs)
  {
    var logs, owed := Window(order, BATCH), Total(s.rows) - max;
    WindowFiles(s, order);
    hide Ordered, Sane, Window;
    VainIff(s, max, logs);
  }

  lemma VainIff(s: Store, max: int, logs: seq<Row>)
    requires forall l :: l in logs ==> l.fileId != ""
    ensures NoneInVain(s, max, logs, Stop(logs, Total(s.rows) - max, 0)) <==> SizesTell(s.rows, Total(s.rows) - max, logs)
  {
    hide Dropped, Total, Holding, Files, Stop, Credited;
    forall j | 0 <= j < |logs|
      ensures j < Stop(logs, Total(s.rows) - max, 0) <==> Credited(logs, j) < Total(s.rows) - max
      ensures Total(Dropped(s, logs, j).rows) > max <==> Holding(s.rows, Files(logs, j)) < Total(s.rows) - max
    {
      NeededIff(s, max, logs, j);
    }
  }

  // ---- files of one row ----

  /** No two live rows share a file. */
  ghost predicate Unshared(rows: seq<Row>) {
    forall i, j :: 0 <= i < j < |rows| && rows[i].live && rows[j].live ==> rows[i].fileId != rows[j].fileId
  }

  lemma OwnFile(s: Store, logs: seq<Row>, j: nat)
    requires Snapshot(s.rows, logs) && Unshared(s.rows) && j < |logs|
    ensures logs[j].fileId !in Files(logs, j)
  {
    FilesAre(logs, j, logs[j].fileId);
    assert forall k :: 0 <= k < j ==> logs[k].id != logs[j].id;
  }

  lemma {:induction false} CreditedIsHeld(s: Store, logs: seq<Row>, j: nat)
    requires Sane(s) && Snapshot(s.rows, logs) && Unshared(s.rows) && j <= |logs|
    ensures Holding(s.rows, Files(logs, j)) == Credited(logs, j)
    decreases j
  {
    if j == 0 {
      HoldingNone(s.rows);
    } else {
      var l := logs[j - 1];
      CreditedIsHeld(s, logs, j - 1);
      OwnFile(s, logs, j - 1);
      assert s.rows[l.id] in s.rows;
      HoldingOne(s.rows, Files(logs, j - 1), l.id);
    }
  }

  /** Every row deleted between `was` and `now` is at least as old as every row still live. */
  ghost predicate OldestGone(was: seq<Row>, now: seq<Row>) {
    && |now| == |was|
    && forall i, j :: 0 <= i < |was| && 0 <= j < |was| && was[i].live && !now[i].live && now[j].live ==>
         was[i].createdAt <= was[j].createdAt
  }

  lemma VictimOlder(s: Store, order: seq<Row>, k: nat, i: nat, j: nat)
    requires Ordered(s.rows, order, None, false) && Unshared(s.rows) && k <= |Window(order, BATCH)|
    requires Snapshot(s.rows, Window(order, BATCH)) && i < |s.rows| && j < |s.rows| && s.rows[i].live && s.rows[j].live
    requires s.rows[i].fileId in Files(Window(order, BATCH), k) && s.rows[j].fileId !in Files(Window(order, BATCH), k)
    ensures s.rows[i].createdAt <= s.rows[j].createdAt
  {
    var logs := Window(order, BATCH);
    FilesAre(logs, k, s.rows[i].fileId);
    FilesAre(logs, k, s.rows[j].fileId);
    var a :| 0 <= a < k && logs[a].fileId == s.rows[i].fileId;
    assert logs[a].id == i && order[a] == logs[a];
    assert Asked(s.rows[j], None);
    var b :| 0 <= b < |order| && order[b] == s.rows[j];
    assert forall c :: 0 <= c < k ==> order[c] == logs[c] && logs[c].fileId != s.rows[j].fileId;
    assert InOrder(order[a], order[b], false);
  }

  lemma VictimsOldest(s: Store, order: seq<Row>, k: nat)
    requires Sane(s) && Ordered(s.rows, order, None, false) && Unshared(s.rows) && k <= |Window(order, BATCH)|
    requires Snapshot(s.rows, Window(order, BATCH))
    ensures OldestGone(s.rows, Dropped(s, Window(order, BATCH), k).rows)
  {
    var logs := Window(order, BATCH);
    WindowFiles(s, order);
    DroppedRows(s, logs, k);
    var s' := Dropped(s, logs, k);
    hide Dropped, Window, Ordered, Unshared, Snapshot;
    forall i, j | 0 <= i < |s.rows| && 0 <= j < |s.rows| && s.rows[i].live && !s'.rows[i].live && s'.rows[j].live
      ensures s.rows[i].createdAt <= s.rows[j].createdAt
    {
      VictimOlder(s, order, k, i, j);
    }
  }

  /** When no file is shared and nothing fails, a size pass deletes the shortest oldest-first run of
      rows that brings the total within the limit: every deletion happens while the total still exceeds
      it, and the pass only stops short of that after a whole batch. */
  lemma OldestFirst(s: Store, max: int, order: seq<Row>) returns (k: nat)
    requires Sane(s) && Ordered(s.rows, order, None, false) && Unshared(s.rows)
    ensures k <= |Window(order, BATCH)|
    ensures CleanBySize(s, max, order, []).0 == Dropped(s, Window(order, BATCH), k)
    ensures NoneInVain(s, max, Window(order, BATCH), k)
    ensures k < |Window(order, BATCH)| ==> Total(Dropped(s, Window(order, BATCH), k).rows) <= max
    ensures OldestGone(s.rows, CleanBySize(s, max, order, []).0.rows)
  {
    var logs := Window(order, BATCH);
    WindowSnapshot(s.rows, order, None, false);
    WindowFiles(s, order);
    hide Dropped, OldestGone, Snapshot, Unshared, Holding, Files, Credited, Sane, Ordered, NoneInVain, Total;
    k := Stop(logs, Total(s.rows) - max, 0);
    SizesDecide(s, max, order);
    NoMoreThanNeededIff(s, max, order);
    forall j | 0 <= j <= |logs| ensures Holding(s.rows, Files(logs, j)) == Credited(logs, j) {
      CreditedIsHeld(s, logs, j);
    }
    DroppedTotal(s, logs, k);
    VictimsOldest(s, order, k);
  }

  // ---- repeated size passes ----

  lemma {:induction false} CleanOldestFades(s: Store, logs: seq<Row>, i: nat, owed: int, faults: seq<Deletion>)
    requires Sane(s) && i <= |logs|
    ensures var s' := CleanOldest(s, logs, i, owed, faults).0;
            Sane(s') && Faded(s.rows, s'.rows) && s'.groups == s.groups
    decreases |logs| - i
  {
    if i == |logs| || owed <= 0 {
    } else {
      var (s1, ok) := DeleteFile(s, logs[i].fileId, At(faults, i));
      SaneDelete(s, logs[i].fileId, At(faults, i));
      var owed1 := if ok then owed - logs[i].size else owed;
      CleanOldestFades(s1, logs, i + 1, owed1, faults);
      FadedTwice(s.rows, s1.rows, CleanOldest(s1, logs, i + 1, owed1, faults).0.rows);
    }
  }

  lemma SomeLog(s: Store, order: seq<Row>)
    requires Sane(s) && Ordered(s.rows, order, None, false) && Total(s.rows) > 0
    ensures var logs := Window(order, BATCH);
            && logs != [] && Snapshot(s.rows, logs) && logs[0].fileId != ""
  {
    SomeLive(s.rows);
    var x :| x in s.rows && x.live && x.status == Saved;
    assert Asked(x, None) && x in order;
    WindowSnapshot(s.rows, order, None, false);
    assert Window(order, BATCH)[0] in s.rows;
  }

  /** One failure-free pass over a store that exceeds the limit loses at least one row. */
  lemma PassProgress(s: Store, max: int, order: seq<Row>)
    requires Sane(s) && Ordered(s.rows, order, None, false) && Total(s.rows) > max >= 0
    ensures LiveCount(CleanBySize(s, max, order, []).0.rows) < LiveCount(s.rows)
  {
    SomeLog(s, order);
    FirstGoes(s, Window(order, BATCH), Total(s.rows) - max);
  }

  lemma FirstStep(s: Store, logs: seq<Row>, owed: int)
    requires logs != [] && logs[0].fileId != "" && owed > 0
    ensures CleanOldest(s, logs, 0, owed, [])
         == CleanOldest(DeleteFile(s, logs[0].fileId, Done).0, logs, 1, owed - logs[0].size, [])
  {
  }

  lemma FirstGone(s: Store, logs: seq<Row>)
    requires logs != [] && Snapshot(s.rows, logs) && logs[0].fileId != ""
    ensures var l, now := logs[0], DeleteFile(s, logs[0].fileId, Done).0.rows;
            |now| == |s.rows| && l.id < |s.rows| && s.rows[l.id].live && !now[l.id].live
  {
  }

  lemma FirstGoes(s: Store, logs: seq<Row>, owed: int)
    requires Sane(s) && logs != [] && Snapshot(s.rows, logs) && logs[0].fileId != "" && owed > 0
    ensures LiveCount(CleanOldest(s, logs, 0, owed, []).0.rows) < LiveCount(s.rows)
  {
    hide Sane, LiveCount, Faded, CleanOldest, Snapshot, Forget, DeleteFile;
    var l := logs[0];
    var s1 := DeleteFile(s, l.fileId, Done).0;
    FirstGone(s, logs);
    FirstStep(s, logs, owed);
    SaneDelete(s, l.fileId, Done);
    FewerLive(s.rows, s1.rows, l.id);
    CleanOldestFades(s1, logs, 1, owed - l.size, []);
    FadedTotals(s1.rows, CleanOldest(s1, logs, 1, owed - l.size, []).0.rows);
  }

  /** Failure-free size passes one after the other, each with the database's answer at that point. */
  function Repeated(s: Store, max: int, orders: seq<seq<Row>>): Store
    decreases |orders|
  {
    if orders == [] then s else Repeated(CleanBySize(s, max, orders[0], []).0, max, orders[1..])
  }

  ghost predicate AllOrdered(s: Store, max: int, orders: seq<seq<Row>>)
    decreases |orders|
  {
    orders != [] ==>
      Ordered(s.rows, orders[0], None, false) && AllOrdered(CleanBySize(s, max, orders[0], []).0, max, orders[1..])
  }

  lemma CleanBySizeFades(s: Store, max: int, order: seq<Row>, faults: seq<Deletion>)
    requires Sane(s)
    ensures var s' := CleanBySize(s, max, order, faults).0;
            Sane(s') && Faded(s.rows, s'.rows) && s'.groups == s.groups
  {
    if Total(s.rows) >= max {
      CleanOldestFades(s, Window(order, BATCH), 0, Total(s.rows) - max, faults);
    }
  }

  lemma {:induction false} WithinStays(s: Store, max: int, orders: seq<seq<Row>>)
    requires Sane(s) && Total(s.rows) <= max
    ensures Total(Repeated(s, max, orders).rows) <= max
    decreases |orders|
  {
    if orders == [] {
    } else {
      var s1 := CleanBySize(s, max, orders[0], []).0;
      CleanBySizeFades(s, max, orders[0], []);
      FadedTotals(s.rows, s1.rows);
      WithinStays(s1, max, orders[1..]);
    }
  }

  /** As many passes as there are live rows always bring the total within the limit. */
  lemma {:induction false} SizeConverges(s: Store, max: int, orders: seq<seq<Row>>)
    requires Sane(s) && max >= 0 && AllOrdered(s, max, orders) && |orders| >= LiveCount(s.rows)
    ensures Total(Repeated(s, max, orders).rows) <= max
    decreases |orders|
  {
    if Total(s.rows) <= max {
      WithinStays(s, max, orders);
    } else {
      SomeLiveCount(s.rows);
      PassProgress(s, max, orders[0]);
      CleanBySizeFades(s, max, orders[0], []);
      SizeConverges(CleanBySize(s, max, orders[0], []).0, max, orders[1..]);
    }
  }

  lemma {:induction false} SomeLiveCount(rows: seq<Row>)
    requires Total(rows) > 0
    ensures LiveCount(rows) > 0
  {
    if Counted(rows[|rows| - 1]) == 0 { SomeLiveCount(rows[..|rows| - 1]); }
  }

  // ---- by age ----

  /** A live row created before the cutoff. */
  predicate TimedOut(x: Row, before: int) {
    x.live && x.createdAt < before
  }

  lemma {:induction false} CleanOldFades(s: Store, logs: seq<Row>, i: nat, faults: seq<Deletion>)
    requires Sane(s) && i <= |logs|
    ensures var s' := CleanOld(s, logs, i, faults);
            Sane(s') && Faded(s.rows, s'.rows) && s'.groups == s.groups
    decreases |logs| - i
  {
    if i == |logs| {
    } else {
      var s1 := DeleteFile(s, logs[i].fileId, At(faults, i)).0;
      SaneDelete(s, logs[i].fileId, At(faults, i));
      CleanOldFades(s1, logs, i + 1, faults);
      FadedTwice(s.rows, s1.rows, CleanOld(s1, logs, i + 1, faults).rows);
    }
  }

  lemma {:induction false} CleanOldRemoves(s: Store, logs: seq<Row>, i: nat, faults: seq<Deletion>, k: nat)
    requires Sane(s) && i <= |logs| && k < |s.rows| && s.rows[k].live
    requires var rows := CleanOld(s, logs, i, faults).rows; k < |rows| && !rows[k].live
    ensures exists l :: l in logs && l.fileId == s.rows[k].fileId
    decreases |logs| - i
  {
    assert i < |logs|;
    var l := logs[i];
    var s1 := DeleteFile(s, l.fileId, At(faults, i)).0;
    assert l in logs;
    SaneDelete(s, l.fileId, At(faults, i));
    if s.rows[k].fileId != l.fileId {
      assert s1.rows[k] == s.rows[k];
      CleanOldRemoves(s1, logs, i + 1, faults, k);
    }
  }

  /** Whatever fails, a pass by age deletes only rows of a file that has a timed-out row. */
  lemma TimeRemoves(s: Store, before: int, order: seq<Row>, faults: seq<Deletion>, k: nat)
    requires Sane(s) && Ordered(s.rows, order, Some(before), true) && k < |s.rows| && s.rows[k].live
    ensures var s' := CleanByTime(s, order, faults);
            && |s'.rows| == |s.rows|
            && (!s'.rows[k].live ==> exists x :: x in s.rows && TimedOut(x, before) && x.fileId == s.rows[k].fileId)
  {
    CleanOldFades(s, Window(order, BATCH), 0, faults);
    if !CleanByTime(s, order, faults).rows[k].live {
      CleanOldRemoves(s, Window(order, BATCH), 0, faults, k);
      var l :| l in Window(order, BATCH) && l.fileId == s.rows[k].fileId;
      assert l in order && Asked(l, Some(before));
    }
  }

  lemma {:induction false} CleanOldClears(s: Store, logs: seq<Row>, i: nat, l: Row)
    requires Sane(s) && i <= |logs| && l in logs[i..] && l.fileId != ""
    ensures !Lists(CleanOld(s, logs, i, []).rows, l.fileId)
    decreases |logs| - i
  {
    var s1 := DeleteFile(s, logs[i].fileId, Done).0;
    SaneDelete(s, logs[i].fileId, Done);
    CleanOldFades(s1, logs, i + 1, []);
    if l == logs[i] {
      Forgotten(s.rows, l.fileId);
      if Lists(CleanOld(s1, logs, i + 1, []).rows, l.fileId) {
        WasListed(s1.rows, CleanOld(s1, logs, i + 1, []).rows, l.fileId);
      }
    } else {
      CleanOldClears(s1, logs, i + 1, l);
    }
  }

  lemma WasListed(was: seq<Row>, now: seq<Row>, fileId: string)
    requires Faded(was, now) && Lists(now, fileId)
    ensures Lists(was, fileId)
  {
    var x :| x in now && x.live && x.fileId == fileId;
    var i :| 0 <= i < |now| && now[i] == x;
    assert was[i] in was;
  }

  /** After a failure-free pass, at least a batch fewer rows are timed out; none when a batch held
      them all. */
  lemma TimePass(s: Store, before: int, order: seq<Row>, after: seq<Row>)
    requires Sane(s) && Ordered(s.rows, order, Some(before), true)
    requires Ordered(CleanByTime(s, order, []).rows, after, Some(before), true)
    ensures |order| <= 1000 ==> after == []
    ensures |order| > 1000 ==> |after| <= |order| - 1000
  {
    var logs, s' := Window(order, BATCH), CleanByTime(s, order, []);
    CleanOldFades(s, logs, 0, []);
    forall x | x in after ensures x in order[|logs|..] {
      assert Asked(x, Some(before)) && x in s'.rows;
      var i :| 0 <= i < |s'.rows| && s'.rows[i] == x;
      assert x == s.rows[i] && x in s.rows;
      if x in logs {
        CleanOldClears(s, logs, 0, x);
        assert false;
      }
      assert order == logs + order[|logs|..];
    }
    assert Sorted(after, true);
    Pigeonhole(after, order[|logs|..]);
  }

  /** A list without repetitions is no longer than a list that holds all its elements. */
  lemma {:induction false} Pigeonhole(xs: seq<Row>, ys: seq<Row>)
    requires forall i, j :: 0 <= i < j < |xs| ==> xs[i].id != xs[j].id
    requires forall x :: x in xs ==> x in ys
    ensures |xs| <= |ys|
  {
    if xs == [] {
    } else {
      assert xs[0] in xs;
      var k :| 0 <= k < |ys| && ys[k] == xs[0];
      var rest := ys[..k] + ys[k + 1..];
      forall x | x in xs[1..] ensures x in rest {
        var j :| 0 <= j < |xs[1..]| && xs[1..][j] == x;
        assert xs[j + 1] == x && x in xs;
        var m :| 0 <= m < |ys| && ys[m] == x;
        assert m < k ==> rest[m] == x;
        assert m > k ==> rest[m - 1] == x;
      }
      Pigeonhole(xs[1..], rest);
    }
  }

  function Aged(s: Store, orders: seq<seq<Row>>): Store
    decreases |orders|
  {
    if orders == [] then s else Aged(CleanByTime(s, orders[0], []), orders[1..])
  }

  ghost predicate AllTimed(s: Store, before: int, orders: seq<seq<Row>>)
    decreases |orders|
  {
    orders != [] ==>
      Ordered(s.rows, orders[0], Some(before), true) && AllTimed(CleanByTime(s, orders[0], []), before, orders[1..])
  }

  /** Two answers to the same query have the same rows. */
  lemma SameAnswer(rows: seq<Row>, before: int, a: seq<Row>, b: seq<Row>)
    requires Ordered(rows, a, Some(before), true) && Ordered(rows, b, Some(before), true)
    ensures |a| == |b|
  {
    assert Sorted(a, true) && Sorted(b, true);
    Pigeonhole(a, b);
    Pigeonhole(b, a);
  }

  /** At a fixed cutoff, one failure-free pass for every batch of timed-out rows clears them all, and
      no pass raises the Saved total, so a size bound established before stays. */
  lemma {:induction false} TimeConverges(s: Store, before: int, first: seq<Row>, orders: seq<seq<Row>>, last: seq<Row>)
    requires Sane(s) && Ordered(s.rows, first, Some(before), true) && |first| <= |orders| * BATCH
    requires AllTimed(s, before, orders) && Ordered(Aged(s, orders).rows, last, Some(before), true)
    ensures last == []
    ensures Total(Aged(s, orders).rows) <= Total(s.rows)
    decreases |orders|
  {
    if orders == [] {
      SameAnswer(s.rows, before, first, last);
    } else {
      var s1 := CleanByTime(s, orders[0], []);
      SameAnswer(s.rows, before, first, orders[0]);
      CleanOldFades(s, Window(orders[0], BATCH), 0, []);
      FadedTotals(s.rows, s1.rows);
      var next := if |orders| > 1 then orders[1] else last;
      if |orders| > 1 {
        assert orders[1..][0] == orders[1];
      } else {
        assert Aged(s1, orders[1..]) == s1;
      }
      TimePass(s, before, orders[0], next);
      TimeConverges(s1, before, next, orders[1..], last);
    }
  }

  /** CleanFile: the age pass keeps whatever bound the size pass before it has established. */
  lemma CleanFileKeepsBound(s: Store, max: int, before: int, c: Cleaning)
    requires Sane(s) && RightAnswers(s, max, before, c) && !c.sizeFails
    ensures Total(CleanFile(s, max, c).rows) <= max + CleanBySize(s, max, c.oldest, c.sizeFaults).1
  {
    var s1 := CleanBySize(s, max, c.oldest, c.sizeFaults).0;
    SizeHonest(s, max, c.oldest, c.sizeFaults);
    CleanBySizeFades(s, max, c.oldest, c.sizeFaults);
    CleanOldFades(s1, Window(c.timedOut, BATCH), 0, c.timeFaults);
    FadedTotals(s1.rows, CleanByTime(s1, c.timedOut, c.timeFaults).rows);
  }
}
