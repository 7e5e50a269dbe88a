/** Rows and stored files agree. */
module Agreement {
  import opened Messages
  import opened Tables
  import opened LogStore
  import opened Retention

  // Runs of whole operations, one after the other, any of which may fail.

  /** One node: its machine id, the digest of file contents, and the size limit. */
  datatype Service = Service(machine: string, md5: Bytes -> string, max: int) {
    function Id(bytes: Bytes): string {
      FileId(machine, md5(bytes))
    }

    ghost predicate CollisionFree() {
      forall a, b :: md5(a) == md5(b) ==> a == b
    }
  }

  datatype Op =
    | Put(u: Upload, now: int, f: UploadFaults)
    | PutGroup(groupId: string, u: Upload, now: int, f: UploadFaults)
    | Delete(fileId: string, outcome: Deletion)
    | DropGroup(groupId: string, logs: seq<Row>, faults: seq<Deletion>, lookupFails: bool, deleteFails: bool)
    | Clean(before: int, c: Cleaning)

  /** The database's answers fit the tables. */
  ghost predicate Possible(v: Service, s: Store, op: Op) {
    match op
    case DropGroup(groupId, logs, _, _, _) =>
      FindGroup(s.groups, groupId).Some? ==> GroupLogs(s.rows, FindGroup(s.groups, groupId).value, logs)
    case Clean(before, c) => RightAnswers(s, v.max, before, c)
    case _ => true
  }

  ghost function Apply(v: Service, s: Store, op: Op): Store {
    if !Possible(v, s, op) then s
    else match op
      case Put(u, now, f) => CreateFile(s, v.Id(u.bytes), u, now, f).0
      case PutGroup(groupId, u, now, f) => CreateGroupFile(s, v.Id(u.bytes), groupId, u, now, f).0
      case Delete(fileId, outcome) => DeleteFile(s, fileId, outcome).0
      case DropGroup(groupId, logs, faults, lookupFails, deleteFails) =>
        DeleteGroup(s, groupId, logs, faults, lookupFails, deleteFails).0
      case Clean(_, c) => CleanFile(s, v.max, c)
  }

  const EMPTY := Store([], [], map[])

  ghost function Run(v: Service, ops: seq<Op>): Store
    decreases |ops|
  {
    if ops == [] then EMPTY else Apply(v, Run(v, ops[..|ops| - 1]), ops[|ops| - 1])
  }

  /** No database failure comes between removing a file and deleting its rows. */
  predicate Untorn(faults: seq<Deletion>) {
    forall f :: f in faults ==> !f.DbFails?
  }

  predicate RowsFollow(op: Op) {
    match op
    case Delete(_, outcome) => !outcome.DbFails?
    case DropGroup(_, _, faults, _, _) => Untorn(faults)
    case Clean(_, c) => Untorn(c.sizeFaults) && Untorn(c.timeFaults)
    case _ => true
  }

  const NO_FAULTS := UploadFaults(Written, false, false)

  predicate NoFaults(faults: seq<Deletion>) {
    forall f :: f in faults ==> f == Done
  }

  predicate FailureFree(op: Op) {
    match op
    case Put(_, _, f) => f == NO_FAULTS
    case PutGroup(_, _, _, f) => f == NO_FAULTS
    case Delete(fileId, outcome) => outcome == Done
    case DropGroup(_, _, faults, lookupFails, deleteFails) => NoFaults(faults) && !lookupFails && !deleteFails
    case Clean(_, c) => !c.sizeFails && !c.timeFails && NoFaults(c.sizeFaults) && NoFaults(c.timeFaults)
  }

  // ---- deleting loops keep what one deletion keeps ----

  /** What a loop of deletions keeps of the tables, and of the files. */
  ghost predicate Trimmed(s: Store, s': Store) {
    && Sane(s') && Faded(s.rows, s'.rows) && s'.groups == s.groups
    && (forall id :: id in s'.files ==> id in s.files && s'.files[id] == s.files[id])
  }

  lemma TrimmedTwice(a: Store, b: Store, c: Store)
    requires Trimmed(a, b) && Trimmed(b, c)
    ensures Trimmed(a, c)
  {
    FadedTwice(a.rows, b.rows, c.rows);
  }

  lemma DeleteTrims(s: Store, fileId: string, f: Deletion)
    requires Sane(s)
    ensures Trimmed(s, DeleteFile(s, fileId, f).0)
    ensures Covered(s) && !f.DbFails? ==> Covered(DeleteFile(s, fileId, f).0)
    ensures Exact(s) && f.Done? ==> Exact(DeleteFile(s, fileId, f).0)
  {
    SaneDelete(s, fileId, f);
    if Covered(s) && fileId != "" { DeleteCovers(s, fileId, f); }
    if Exact(s) && fileId != "" { DeleteExact(s, fileId); }
  }

  lemma AtIn(faults: seq<Deletion>, i: nat)
    ensures Untorn(faults) ==> !At(faults, i).DbFails?
    ensures NoFaults(faults) ==> At(faults, i) == Done
  {
    assert i < |faults| ==> At(faults, i) in faults;
  }

  lemma {:induction false} DeleteAllTrims(s: Store, logs: seq<Row>, i: nat, faults: seq<Deletion>)
    requires Sane(s) && i <= |logs| && forall l :: l in logs ==> l.fileId != ""
    ensures var s' := DeleteAll(s, logs, i, faults).0;
            && Trimmed(s, s')
            && (Covered(s) && Untorn(faults) ==> Covered(s'))
            && (Exact(s) && NoFaults(faults) ==> Exact(s'))
    decreases |logs| - i
  {
    if i == |logs| {
    } else {
      var s1 := DeleteFile(s, logs[i].fileId, At(faults, i)).0;
      AtIn(faults, i);
      DeleteTrims(s, logs[i].fileId, At(faults, i));
      DeleteAllTrims(s1, logs, i + 1, faults);
      TrimmedTwice(s, s1, DeleteAll(s1, logs, i + 1, faults).0);
    }
  }

  lemma {:induction false} CleanOldestTrims(s: Store, logs: seq<Row>, i: nat, owed: int, faults: seq<Deletion>)
    requires Sane(s) && i <= |logs| && forall l :: l in logs ==> l.fileId != ""
    ensures var s' := CleanOldest(s, logs, i, owed, faults).0;
            && Trimmed(s, s')
            && (Covered(s) && Untorn(faults) ==> Covered(s'))
            && (Exact(s) && NoFaults(faults) ==> Exact(s'))
    decreases |logs| - i
  {
    if i == |logs| || owed <= 0 {
    } else {
      var (s1, ok) := DeleteFile(s, logs[i].fileId, At(faults, i));
      var owed1 := if ok then owed - logs[i].size else owed;
      AtIn(faults, i);
      DeleteTrims(s, logs[i].fileId, At(faults, i));
      CleanOldestTrims(s1, logs, i + 1, owed1, faults);
      TrimmedTwice(s, s1, CleanOldest(s1, logs, i + 1, owed1, faults).0);
    }
  }

  lemma {:induction false} CleanOldTrims(s: Store, logs: seq<Row>, i: nat, faults: seq<Deletion>)
    requires Sane(s) && i <= |logs| && forall l :: l in logs ==> l.fileId != ""
    ensures var s' := CleanOld(s, logs, i, faults);
            && Trimmed(s, s')
            && (Covered(s) && Untorn(faults) ==> Covered(s'))
            && (Exact(s) && NoFaults(faults) ==> Exact(s'))
    decreases |logs| - i
  {
    if i == |logs| {
    } else {
      var s1 := DeleteFile(s, logs[i].fileId, At(faults, i)).0;
      AtIn(faults, i);
      DeleteTrims(s, logs[i].fileId, At(faults, i));
      CleanOldTrims(s1, logs, i + 1, faults);
      TrimmedTwice(s, s1, CleanOld(s1, logs, i + 1, faults));
    }
  }

  lemma WindowIds(rows: seq<Row>, order: seq<Row>, cutoff: Option<int>, newestFirst: bool)
    requires Ordered(rows, order, cutoff, newestFirst) && forall x :: x in rows ==> x.fileId != ""
    ensures forall l :: l in Window(order, BATCH) ==> l.fileId != ""
  {
    forall l | l in Window(order, BATCH) ensures l.fileId != "" {
      assert l in order;
    }
  }

  lemma CleanTrims(s: Store, max: int, before: int, c: Cleaning)
    requires Sane(s) && RightAnswers(s, max, before, c)
    ensures var s' := CleanFile(s, max, c);
            && Trimmed(s, s')
            && (Covered(s) && Untorn(c.sizeFaults) && Untorn(c.timeFaults) ==> Covered(s'))
            && (Exact(s) && NoFaults(c.sizeFaults) && NoFaults(c.timeFaults) ==> Exact(s'))
  {
    var s1 := if c.sizeFails then s else CleanBySize(s, max, c.oldest, c.sizeFaults).0;
    if !c.sizeFails {
      WindowIds(s.rows, c.oldest, None, false);
      CleanOldestTrims(s, Window(c.oldest, BATCH), 0, Total(s.rows) - max, c.sizeFaults);
    }
    assert Trimmed(s, s1);
    if !c.timeFails {
      WindowIds(s1.rows, c.timedOut, Some(before), true);
      CleanOldTrims(s1, Window(c.timedOut, BATCH), 0, c.timeFaults);
      TrimmedTwice(s, s1, CleanFile(s, max, c));
    }
  }

  lemma DropTrims(s: Store, groupId: string, logs: seq<Row>, faults: seq<Deletion>, lookupFails: bool, deleteFails: bool)
    requires Sane(s)
    requires FindGroup(s.groups, groupId).Some? ==> GroupLogs(s.rows, FindGroup(s.groups, groupId).value, logs)
    ensures var s' := DeleteGroup(s, groupId, logs, faults, lookupFails, deleteFails).0;
            && Sane(s') && Faded(s.rows, s'.rows) && |s'.groups| == |s.groups|
            && (forall g :: 0 <= g < |s.groups| ==> s'.groups[g].size == s.groups[g].size)
            && (forall id :: id in s'.files ==> id in s.files && s'.files[id] == s.files[id])
            && (Covered(s) && Untorn(faults) ==> Covered(s'))
            && (Exact(s) && NoFaults(faults) ==> Exact(s'))
  {
    if FindGroup(s.groups, groupId).Some? {
      DeleteAllTrims(s, logs, 0, faults);
    }
  }

  // ---- uploads ----

  lemma Appended(s: Store, s': Store, x: Row)
    requires s'.rows == s.rows + [x] && x.live
    requires forall id :: id in s'.files <==> id in s.files || id == x.fileId
    ensures Covered(s) ==> Covered(s')
    ensures Exact(s) ==> Exact(s')
  {
    forall id ensures Lists(s'.rows, id) <==> Lists(s.rows, id) || id == x.fileId {
      if Lists(s.rows, id) {
        var y :| y in s.rows && y.live && y.fileId == id;
        assert y in s'.rows;
      }
      if id == x.fileId { assert x in s'.rows; }
    }
  }

  lemma CreateFileKeeps(s: Store, id: string, u: Upload, now: int, f: UploadFaults)
    requires Sane(s) && id != ""
    ensures var s' := CreateFile(s, id, u, now, f).0;
            && Sane(s')
            && (Covered(s) ==> Covered(s'))
            && (Exact(s) && f == NO_FAULTS ==> Exact(s'))
  {
    var s' := CreateFile(s, id, u, now, f).0;
    if s'.rows != s.rows {
      Appended(s, s', LogRow(s, id, u, now, None));
    } else if Exact(s) && f == NO_FAULTS {
      assert Find(s.rows, id).Some? && Lists(s.rows, id);
    }
  }

  lemma CreateGroupFileKeeps(s: Store, id: string, groupId: string, u: Upload, now: int, f: UploadFaults)
    requires Sane(s) && id != ""
    ensures var s' := CreateGroupFile(s, id, groupId, u, now, f).0;
            && Sane(s')
            && (Covered(s) ==> Covered(s'))
            && (Exact(s) && f == NO_FAULTS ==> Exact(s'))
  {
    var s' := CreateGroupFile(s, id, groupId, u, now, f).0;
    if s'.rows != s.rows {
      Appended(s, s', s'.rows[|s.rows|]);
    }
  }

  // ---- runs ----

  lemma StepAgrees(v: Service, s: Store, op: Op)
    requires Sane(s)
    ensures Sane(Apply(v, s, op))
    ensures Covered(s) && RowsFollow(op) ==> Covered(Apply(v, s, op))
    ensures Exact(s) && FailureFree(op) ==> Exact(Apply(v, s, op))
  {
    if Possible(v, s, op) {
      match op
      case Put(u, now, f) => CreateFileKeeps(s, v.Id(u.bytes), u, now, f);
      case PutGroup(groupId, u, now, f) => CreateGroupFileKeeps(s, v.Id(u.bytes), groupId, u, now, f);
      case Delete(fileId, outcome) => DeleteTrims(s, fileId, outcome);
      case DropGroup(groupId, logs, faults, lf, df) => DropTrims(s, groupId, logs, faults, lf, df);
      case Clean(before, c) => CleanTrims(s, v.max, before, c);
    }
  }

  /** In every run in which at most uploads and storage calls fail, no live row lacks its file; in a
      failure-free run the stored files are exactly those of the live rows. */
  lemma {:induction false} StoreAgreement(v: Service, ops: seq<Op>)
    ensures Sane(Run(v, ops))
    ensures (forall op :: op in ops ==> RowsFollow(op)) ==> Covered(Run(v, ops))
    ensures (forall op :: op in ops ==> FailureFree(op)) ==> Exact(Run(v, ops))
    decreases |ops|
  {
    if ops == [] {
    } else {
      var n := |ops| - 1;
      StoreAgreement(v, ops[..n]);
      var s := Run(v, ops[..n]);
      StepAgrees(v, s, ops[n]);
      assert ops[n] in ops && forall op :: op in ops[..n] ==> op in ops;
    }
  }

  // ---- a run in which the size pass deletes too much ----

  /** Two uploads of `x` into one group, with an upload of `y` between them. */
  function Doubled(x: Bytes, y: Bytes): seq<Op> {
    [PutGroup("g", Upload(x, "x", |x|, []), 0, NO_FAULTS), Put(Upload(y, "y", |y|, []), 1, NO_FAULTS),
     PutGroup("g", Upload(x, "x", |x|, []), 2, NO_FAULTS)]
  }

  function DoubledRows(v: Service, x: Bytes, y: Bytes): seq<Row> {
    [Row(0, v.Id(x), "x", |x|, Saved, 0, Some(0), true, []), Row(1, v.Id(y), "y", |y|, Saved, 1, None, true, []),
     Row(2, v.Id(x), "x", |x|, Saved, 2, Some(0), true, [])]
  }

  lemma RunSnoc(v: Service, ops: seq<Op>, op: Op)
    ensures Run(v, ops + [op]) == Apply(v, Run(v, ops), op)
  {
    assert (ops + [op])[..|ops|] == ops;
  }

  lemma DoubledFirst(v: Service, x: Bytes, y: Bytes)
    ensures Run(v, Doubled(x, y)[..1]) == Store(DoubledRows(v, x, y)[..1], [LogGroup("g", |x|, true)], map[v.Id(x) := x])
  {
    assert Doubled(x, y)[..1][..0] == [];
    assert Run(v, Doubled(x, y)[..1]) == Apply(v, EMPTY, Doubled(x, y)[0]);
    assert FindGroup([], "g") == None;
  }

  lemma DoubledRun(v: Service, x: Bytes, y: Bytes)
    requires v.Id(x) != v.Id(y)
    ensures Run(v, Doubled(x, y)).rows == DoubledRows(v, x, y)
  {
    var ops, rows := Doubled(x, y), DoubledRows(v, x, y);
    DoubledFirst(v, x, y);
    RunSnoc(v, ops[..1], ops[1]);
    RunSnoc(v, ops[..2], ops[2]);
    assert ops[..1] + [ops[1]] == ops[..2] && ops[..2] + [ops[2]] == ops;
    hide Run;
    var s1, s2 := Run(v, ops[..1]), Run(v, ops[..2]);
    assert Find(s1.rows, v.Id(y)) == None;
    assert s2.rows == rows[..2] && s2.groups == s1.groups;
    assert FindGroup(s2.groups, "g") == Some(0);
  }

  lemma TotalOfThree(rows: seq<Row>)
    requires |rows| == 3
    ensures Total(rows) == Counted(rows[0]) + Counted(rows[1]) + Counted(rows[2])
  {
    assert rows[..2][..1][..0] == [];
    assert Total(rows[..2][..1]) == Counted(rows[0]);
    assert Total(rows[..2]) == Total(rows[..2][..1]) + Counted(rows[1]);
  }

  /** The pass a cleaning of those rows starts with; nothing is timed out. */
  function DoubledCleaning(v: Service, x: Bytes, y: Bytes): Cleaning {
    Cleaning(false, DoubledRows(v, x, y), [], false, [], [])
  }

  /** One deletion is enough. */
  lemma OneIsEnough(v: Service, s: Store, x: Bytes, y: Bytes)
    requires s.rows == DoubledRows(v, x, y) && v.Id(x) != v.Id(y)
    ensures var one := Dropped(s, s.rows, 1); Total(one.rows) == |y| && Lists(one.rows, v.Id(y))
  {
    var one := Dropped(s, s.rows, 1);
    assert one == DeleteFile(Dropped(s, s.rows, 0), v.Id(x), Done).0;
    TotalOfThree(one.rows);
    assert one.rows[1] == s.rows[1] && one.rows[1] in one.rows;
  }

  lemma DoubledAnswer(v: Service, rows: seq<Row>, x: Bytes, y: Bytes)
    requires rows == DoubledRows(v, x, y)
    ensures Ordered(rows, rows, None, false) && Total(rows) == 2 * |x| + |y| && Credited(rows, 1) == |x|
  {
    TotalOfThree(rows);
    assert Credited(rows, 1) == Credited(rows, 0) + |x|;
  }

  /** The sizes ask for a second one. */
  lemma TwoAreDeleted(v: Service, s: Store, x: Bytes, y: Bytes)
    requires s.rows == DoubledRows(v, x, y) && Sane(s) && |x| == |y| <= v.max < 2 * |x|
    ensures Ordered(s.rows, s.rows, None, false)
    ensures !Lists(CleanBySize(s, v.max, s.rows, []).0.rows, v.Id(y))
  {
    var rows := s.rows;
    DoubledAnswer(v, rows, x, y);
    hide Ordered, Total;
    SizesDecide(s, v.max, rows);
    var k := Stop(rows, Total(rows) - v.max, 0);
    WindowFiles(s, rows);
    DroppedRows(s, rows, k);
    assert rows[1].fileId == v.Id(y) && k > 1;
    FilesAre(rows, k, v.Id(y));
  }

  /** A cleaning at a time before all rows is its size pass. */
  lemma NothingTimedOut(v: Service, s: Store, order: seq<Row>)
    requires Sane(s) && Ordered(s.rows, order, None, false) && forall x :: x in s.rows ==> x.createdAt >= 0
    ensures var clean := Clean(0, Cleaning(false, order, [], false, [], []));
            Possible(v, s, clean) && Apply(v, s, clean) == CleanBySize(s, v.max, order, []).0
  {
    hide CleanBySize;
    var s1 := CleanBySize(s, v.max, order, []).0;
    CleanBySizeFades(s, v.max, order, []);
    forall x | x in s1.rows ensures !Asked(x, Some(0)) {
      var i :| 0 <= i < |s1.rows| && s1.rows[i] == x;
      assert s.rows[i] in s.rows;
    }
    assert Ordered(s1.rows, [], Some(0), true);
    assert CleanByTime(s1, [], []) == s1;
  }

  lemma DoubledFailureFree(v: Service, x: Bytes, y: Bytes)
    ensures forall op :: op in Doubled(x, y) + [Clean(0, DoubledCleaning(v, x, y))] ==> FailureFree(op)
  {
  }

  /** A group that holds a file twice makes the size pass delete too much: the first deletion frees both
      rows and brings the total within the limit, but only one row is counted as paid, so the other file
      goes as well. Nothing fails in this run. */
  lemma SharedOverdeletes(v: Service, x: Bytes, y: Bytes)
    requires v.Id(x) != v.Id(y) && |x| == |y| <= v.max < 2 * |x|
    ensures var ops, clean := Doubled(x, y), Clean(0, DoubledCleaning(v, x, y));
            var one := Dropped(Run(v, ops), DoubledRows(v, x, y), 1);
            && (forall op :: op in ops + [clean] ==> FailureFree(op)) && Possible(v, Run(v, ops), clean)
            && Total(one.rows) <= v.max && Lists(one.rows, v.Id(y)) && !Lists(Run(v, ops + [clean]).rows, v.Id(y))
  {
    var ops, clean := Doubled(x, y), Clean(0, DoubledCleaning(v, x, y));
    DoubledFailureFree(v, x, y);
    DoubledRun(v, x, y);
    StoreAgreement(v, ops);
    hide FailureFree, Doubled, Run, Dropped, Total, CleanBySize, Lists, Apply, Possible, Ordered, Sane;
    var s := Run(v, ops);
    OneIsEnough(v, s, x, y);
    TwoAreDeleted(v, s, x, y);
    RunSnoc(v, ops, clean);
    NothingTimedOut(v, s, clean.c.oldest);
  }
}
