/** Uploads come back as they were. */
module Downloads {
  import opened Messages
  import opened Tables
  import opened LogStore
  import opened Agreement

  // What keeps a stored file, and the one failure that spoils it.

  /** Every stored file holds contents whose digest names it. */
  ghost predicate Intact(v: Service, s: Store) {
    forall id :: id in s.files ==> id == v.Id(s.files[id])
  }

  /** No write stops half way. */
  predicate Tearless(op: Op) {
    match op
    case Put(_, _, f) => !f.saving.Torn?
    case PutGroup(_, _, _, f) => !f.saving.Torn?
    case _ => true
  }

  /** DeleteLogGroup's loop asks for the file before or at its first failure. */
  predicate DropAsks(logs: seq<Row>, i: nat, faults: seq<Deletion>, id: string)
    requires i <= |logs|
    decreases |logs| - i
  {
    i < |logs| && (logs[i].fileId == id || (logs[i].fileId != "" && At(faults, i).Done? && DropAsks(logs, i + 1, faults, id)))
  }

  /** The size pass asks for the file while something is still owed. */
  predicate OldestAsks(logs: seq<Row>, i: nat, owed: int, faults: seq<Deletion>, id: string)
    requires i <= |logs|
    decreases |logs| - i
  {
    && i < |logs| && owed > 0
    && (logs[i].fileId == id ||
        OldestAsks(logs, i + 1, if logs[i].fileId != "" && At(faults, i).Done? then owed - logs[i].size else owed, faults, id))
  }

  /** The operation asks for the file to be deleted: directly, with its group, or in a cleaning pass
      that reaches one of its rows. */
  ghost predicate Touches(v: Service, s: Store, op: Op, id: string) {
    match op
    case Delete(fileId, _) => fileId == id
    case DropGroup(groupId, logs, faults, lookupFails, _) =>
      !lookupFails && FindGroup(s.groups, groupId).Some? && DropAsks(logs, 0, faults, id)
    case Clean(_, c) =>
      || (!c.sizeFails && Total(s.rows) >= v.max && OldestAsks(Window(c.oldest, BATCH), 0, Total(s.rows) - v.max, c.sizeFaults, id))
      || (!c.timeFails && exists l :: l in Window(c.timedOut, BATCH) && l.fileId == id)
    case _ => false
  }

  ghost predicate Uploads(v: Service, s: Store, op: Op, bytes: Bytes) {
    match op
    case Put(u, now, f) => u.bytes == bytes && CreateFile(s, v.Id(bytes), u, now, f).1
    case PutGroup(groupId, u, now, f) => u.bytes == bytes && CreateGroupFile(s, v.Id(bytes), groupId, u, now, f).1
    case _ => false
  }

  lemma Same(v: Service, a: Bytes, b: Bytes)
    requires v.CollisionFree() && v.Id(a) == v.Id(b)
    ensures a == b
  {
    var n := |v.machine| + 1;
    assert v.Id(a)[n..] == v.md5(a) && v.Id(b)[n..] == v.md5(b);
  }

  lemma StepIntact(v: Service, s: Store, op: Op)
    requires Sane(s) && Intact(v, s) && Tearless(op)
    ensures Intact(v, Apply(v, s, op))
  {
    if Possible(v, s, op) {
      match op
      case Delete(fileId, outcome) =>
      case DropGroup(groupId, logs, faults, lf, df) => DropTrims(s, groupId, logs, faults, lf, df);
      case Clean(before, c) => CleanTrims(s, v.max, before, c);
      case _ =>
    }
  }

  lemma {:induction false} RunIntact(v: Service, ops: seq<Op>)
    requires forall op :: op in ops ==> Tearless(op)
    ensures Intact(v, Run(v, ops))
    decreases |ops|
  {
    if ops == [] {
    } else {
      var n := |ops| - 1;
      assert ops[n] in ops && forall op :: op in ops[..n] ==> op in ops;
      RunIntact(v, ops[..n]);
      StoreAgreement(v, ops[..n]);
      StepIntact(v, Run(v, ops[..n]), ops[n]);
    }
  }

  // ---- what an operation that does not ask for the file leaves of it ----

  ghost predicate Stays(s: Store, s': Store, id: string) {
    (Lists(s.rows, id) ==> Lists(s'.rows, id)) && (id in s.files ==> id in s'.files)
  }

  lemma DeleteStays(s: Store, other: string, f: Deletion, id: string)
    requires other != id
    ensures Stays(s, DeleteFile(s, other, f).0, id)
  {
    Forgotten(s.rows, other);
  }

  lemma StaysTwice(a: Store, b: Store, c: Store, id: string)
    requires Stays(a, b, id) && Stays(b, c, id)
    ensures Stays(a, c, id)
  {
  }

  lemma {:induction false} DeleteAllStays(s: Store, logs: seq<Row>, i: nat, faults: seq<Deletion>, id: string)
    requires i <= |logs| && !DropAsks(logs, i, faults, id)
    ensures Stays(s, DeleteAll(s, logs, i, faults).0, id)
    decreases |logs| - i
  {
    if i == |logs| {
    } else {
      var (s1, ok) := DeleteFile(s, logs[i].fileId, At(faults, i));
      DeleteStays(s, logs[i].fileId, At(faults, i), id);
      if ok {
        DeleteAllStays(s1, logs, i + 1, faults, id);
        StaysTwice(s, s1, DeleteAll(s1, logs, i + 1, faults).0, id);
      }
    }
  }

  lemma {:induction false} CleanOldestStays(s: Store, logs: seq<Row>, i: nat, owed: int, faults: seq<Deletion>, id: string)
    requires i <= |logs| && !OldestAsks(logs, i, owed, faults, id)
    ensures Stays(s, CleanOldest(s, logs, i, owed, faults).0, id)
    decreases |logs| - i
  {
    if i == |logs| || owed <= 0 {
    } else {
      var (s1, ok) := DeleteFile(s, logs[i].fileId, At(faults, i));
      var owed1 := if ok then owed - logs[i].size else owed;
      DeleteStays(s, logs[i].fileId, At(faults, i), id);
      CleanOldestStays(s1, logs, i + 1, owed1, faults, id);
      StaysTwice(s, s1, CleanOldest(s1, logs, i + 1, owed1, faults).0, id);
    }
  }

  lemma {:induction false} CleanOldStays(s: Store, logs: seq<Row>, i: nat, faults: seq<Deletion>, id: string)
    requires i <= |logs| && forall l :: l in logs ==> l.fileId != id
    ensures Stays(s, CleanOld(s, logs, i, faults), id)
    decreases |logs| - i
  {
    if i == |logs| {
    } else {
      var s1 := DeleteFile(s, logs[i].fileId, At(faults, i)).0;
      DeleteStays(s, logs[i].fileId, At(faults, i), id);
      CleanOldStays(s1, logs, i + 1, faults, id);
      StaysTwice(s, s1, CleanOld(s1, logs, i + 1, faults), id);
    }
  }

  lemma CleanStays(v: Service, s: Store, before: int, c: Cleaning, id: string)
    requires !Touches(v, s, Clean(before, c), id)
    ensures Stays(s, CleanFile(s, v.max, c), id)
  {
    var s1 := if c.sizeFails then s else CleanBySize(s, v.max, c.oldest, c.sizeFaults).0;
    if !c.sizeFails && Total(s.rows) >= v.max {
      CleanOldestStays(s, Window(c.oldest, BATCH), 0, Total(s.rows) - v.max, c.sizeFaults, id);
    }
    assert Stays(s, s1, id);
    if !c.timeFails {
      CleanOldStays(s1, Window(c.timedOut, BATCH), 0, c.timeFaults, id);
    }
  }

  lemma AppendStays(s: Store, s': Store, id: string)
    requires s.rows <= s'.rows && forall k :: k in s.files ==> k in s'.files
    ensures Stays(s, s', id)
  {
    if Lists(s.rows, id) {
      var x :| x in s.rows && x.live && x.fileId == id;
      assert x in s'.rows;
    }
  }

  lemma DropStays(v: Service, s: Store, op: Op, id: string)
    requires op.DropGroup? && !Touches(v, s, op, id)
    ensures Stays(s, DeleteGroup(s, op.groupId, op.logs, op.faults, op.lookupFails, op.deleteFails).0, id)
  {
    if !op.lookupFails && FindGroup(s.groups, op.groupId).Some? {
      DeleteAllStays(s, op.logs, 0, op.faults, id);
    }
  }

  lemma StepStays(v: Service, s: Store, op: Op, id: string)
    requires !Touches(v, s, op, id)
    ensures Stays(s, Apply(v, s, op), id)
  {
    if Possible(v, s, op) {
      match op
      case Put(u, now, f) => AppendStays(s, Apply(v, s, op), id);
      case PutGroup(groupId, u, now, f) => AppendStays(s, Apply(v, s, op), id);
      case Delete(fileId, outcome) => DeleteStays(s, fileId, outcome, id);
      case DropGroup(groupId, logs, faults, lf, df) => DropStays(v, s, op, id);
      case Clean(before, c) => CleanStays(v, s, before, c, id);
    }
  }

  lemma {:induction false} RunStays(v: Service, ops: seq<Op>, more: seq<Op>, id: string)
    requires forall k :: 0 <= k < |more| ==> !Touches(v, Run(v, ops + more[..k]), more[k], id)
    ensures Stays(Run(v, ops), Run(v, ops + more), id)
    decreases |more|
  {
    if more == [] {
      assert ops + more == ops;
    } else {
      var n := |more| - 1;
      hide Touches, Stays, Run, Apply;
      assert ops + more == ops + more[..n] + [more[n]];
      RunSnoc(v, ops + more[..n], more[n]);
      forall k | 0 <= k < n ensures !Touches(v, Run(v, ops + more[..n][..k]), more[..n][k], id) {
        assert more[..n][..k] == more[..k];
      }
      RunStays(v, ops, more[..n], id);
      StepStays(v, Run(v, ops + more[..n]), more[n], id);
      StaysTwice(Run(v, ops), Run(v, ops + more[..n]), Run(v, ops + more), id);
    }
  }

  // ---- the round trip ----

  lemma ListedFound(s: Store, id: string)
    requires Sane(s) && Lists(s.rows, id)
    ensures Find(s.rows, id).Some?
  {
    var x :| x in s.rows && x.live && x.fileId == id;
    assert Listed(x, id);
  }

  lemma UploadListed(v: Service, s: Store, op: Op, bytes: Bytes)
    requires Sane(s) && Uploads(v, s, op, bytes)
    ensures var s', id := Apply(v, s, op), v.Id(bytes);
            && Lists(s'.rows, id) && id in s'.files
            && s'.files[id] == if id in s.files then s.files[id] else bytes
  {
    var s', id := Apply(v, s, op), v.Id(bytes);
    if s'.rows != s.rows {
      assert s'.rows[|s.rows|].fileId == id && s'.rows[|s.rows|] in s'.rows;
    } else {
      assert Find(s.rows, id).Some?;
    }
  }

  /** A file uploaded successfully downloads as the same bytes after any further operations that do
      not ask for it, whatever failed before, between or since short of a torn write. */
  lemma RoundTrip(v: Service, ops: seq<Op>, op: Op, bytes: Bytes, more: seq<Op>)
    requires v.CollisionFree() && Uploads(v, Run(v, ops), op, bytes)
    requires forall o :: o in ops + [op] + more ==> Tearless(o)
    requires forall k :: 0 <= k < |more| ==> !Touches(v, Run(v, ops + [op] + more[..k]), more[k], v.Id(bytes))
    ensures var r := GetFile(Run(v, ops + [op] + more), v.Id(bytes)); r.Some? && r.value.1 == bytes
  {
    var id, s := v.Id(bytes), Run(v, ops + [op] + more);
    assert (ops + [op])[..|ops|] == ops;
    StoreAgreement(v, ops);
    StoreAgreement(v, ops + [op] + more);
    UploadListed(v, Run(v, ops), op, bytes);
    RunStays(v, ops + [op], more, id);
    RunIntact(v, ops + [op] + more);
    ListedFound(s, id);
    Same(v, s.files[id], bytes);
  }

  /** In a run whose writes do not tear and whose deletions remove the rows with the file, an upload
      downloads with its own bytes exactly as long as a live row of its file is left. */
  lemma ListedDownloads(v: Service, ops: seq<Op>, bytes: Bytes)
    requires v.CollisionFree() && forall o :: o in ops ==> Tearless(o) && RowsFollow(o)
    ensures var r := GetFile(Run(v, ops), v.Id(bytes));
            Lists(Run(v, ops).rows, v.Id(bytes)) <==> r.Some? && r.value.1 == bytes
  {
    var id, s := v.Id(bytes), Run(v, ops);
    StoreAgreement(v, ops);
    RunIntact(v, ops);
    if Lists(s.rows, id) {
      ListedFound(s, id);
      var x :| x in s.rows && x.live && x.fileId == id;
      Same(v, s.files[id], bytes);
    }
  }

  /** In a run without torn writes a download is never wrong: it has the uploaded bytes or fails. */
  lemma NeverWrong(v: Service, ops: seq<Op>, bytes: Bytes)
    requires v.CollisionFree() && forall o :: o in ops ==> Tearless(o)
    ensures var r := GetFile(Run(v, ops), v.Id(bytes)); r.Some? ==> r.value.1 == bytes
  {
    RunIntact(v, ops);
    var s := Run(v, ops);
    if v.Id(bytes) in s.files {
      Same(v, s.files[v.Id(bytes)], bytes);
    }
  }

  /** A successful upload can be downloaded with its own bytes exactly when nothing else was stored
      under its id before. */
  lemma UploadReads(v: Service, s: Store, op: Op, bytes: Bytes)
    requires Sane(s) && Uploads(v, s, op, bytes) && Possible(v, s, op)
    ensures var r, id := GetFile(Apply(v, s, op), v.Id(bytes)), v.Id(bytes);
            r.Some? && (r.value.1 == bytes <==> (id in s.files ==> s.files[id] == bytes))
  {
    UploadListed(v, s, op, bytes);
    StepAgrees(v, s, op);
    ListedFound(Apply(v, s, op), v.Id(bytes));
  }

  /** A write that stops half way is never repaired: uploading the same file again succeeds and
      serves the torn contents. */
  lemma TornUpload(v: Service, u: Upload, n: nat, now: int)
    requires n < |u.bytes|
    ensures var ops := [Put(u, now, UploadFaults(Torn(n), false, false)), Put(u, now, NO_FAULTS)];
            && Uploads(v, Run(v, ops[..1]), ops[1], u.bytes)
            && GetFile(Run(v, ops), v.Id(u.bytes)) == Some((u.name, u.bytes[..n]))
            && u.bytes[..n] != u.bytes
  {
    var id := v.Id(u.bytes);
    var torn, again := Put(u, now, UploadFaults(Torn(n), false, false)), Put(u, now, NO_FAULTS);
    assert [torn][..0] == [] && [torn, again][..1] == [torn];
    var s1 := Run(v, [torn]);
    assert Run(v, [torn][..0]) == EMPTY && s1 == Apply(v, EMPTY, torn);
    assert s1 == CreateFile(EMPTY, id, u, now, torn.f).0;
    assert s1 == Store([], [], map[id := u.bytes[..n]]);
    var s2 := Run(v, [torn, again]);
    assert s2.rows == [LogRow(s1, id, u, now, None)];
  }
}
