/** One operation on the store. */
module Records {
  import opened Messages
  import opened Tables
  import opened LogStore
  import opened Agreement
  import opened Groups

  // What an upload, a download and a deletion do to the records and files of a node.

  /** A live row that says of the upload what the client said, and when and where it went. */
  predicate IsRecord(x: Row, fileId: string, u: Upload, now: int, group: Option<nat>) {
    && x.fileId == fileId && x.name == u.name && x.size == u.size && x.tags == u.tags
    && x.status == Saved && x.createdAt == now && x.group == group && x.live
  }

  /** Besides the file `id`, both hold the same contents. */
  predicate SameElsewhere(files: map<string, Bytes>, files': map<string, Bytes>, id: string) {
    && (forall other :: other in files && other != id ==> other in files' && files'[other] == files[other])
    && (forall other :: other in files' && other != id ==> other in files)
  }

  /** No file but `id` changes; `id` keeps its contents, and after a success holds the new ones if it was new. */
  predicate FileStored(files: map<string, Bytes>, files': map<string, Bytes>, id: string, bytes: Bytes, ok: bool) {
    && SameElsewhere(files, files', id)
    && (id in files ==> id in files' && files'[id] == files[id])
    && (ok ==> id in files' && (id !in files ==> files'[id] == bytes))
  }

  lemma FindIsListed(s: Store, id: string)
    requires Sane(s)
    ensures Find(s.rows, id).Some? <==> Lists(s.rows, id)
  {
    if Lists(s.rows, id) {
      var x :| x in s.rows && x.live && x.fileId == id;
      assert Listed(x, id);
    }
  }

  /** An upload succeeds exactly when its file is there or written, the look-up works, and the insertion
      works where one is needed. It adds the record of a file no live row lists, and downloads under its
      own name then; of a listed file it adds nothing. */
  lemma UploadOutcome(s: Store, id: string, u: Upload, now: int, f: UploadFaults)
    requires Sane(s)
    ensures var (s', ok) := CreateFile(s, id, u, now, f);
            && (ok <==> && id != "" && (id in s.files || f.saving == Written) && !f.lookupFails
                        && (Lists(s.rows, id) || !f.writeFails))
            && FileStored(s.files, s'.files, id, u.bytes, ok) && s'.groups == s.groups
            && (if ok && !Lists(s.rows, id)
                then && |s'.rows| == |s.rows| + 1 && s'.rows[..|s.rows|] == s.rows
                     && IsRecord(s'.rows[|s.rows|], id, u, now, None)
                     && GetFile(s', id) == Some((u.name, s'.files[id]))
                else s'.rows == s.rows)
  {
    FindIsListed(s, id);
    var (s', ok) := CreateFile(s, id, u, now, f);
    if ok && !Lists(s.rows, id) {
      var x := s'.rows[|s.rows|];
      assert s'.rows == s.rows + [x];
      FindAppended(s.rows, x);
    }
  }

  lemma {:induction false} FindAppended(rows: seq<Row>, x: Row)
    requires Listed(x, x.fileId) && Find(rows, x.fileId).None?
    ensures Find(rows + [x], x.fileId) == Some(x)
  {
    if rows == [] {
    } else {
      assert (rows + [x])[1..] == rows[1..] + [x];
      FindAppended(rows[1..], x);
    }
  }

  /** Group `g` is the live group of that id that was created first. */
  predicate FirstLive(groups: seq<LogGroup>, groupId: string, g: nat) {
    && g < |groups| && groups[g].live && groups[g].groupId == groupId
    && forall j :: 0 <= j < g ==> !(groups[j].live && groups[j].groupId == groupId)
  }

  predicate NoLive(groups: seq<LogGroup>, groupId: string) {
    forall j :: 0 <= j < |groups| ==> !(groups[j].live && groups[j].groupId == groupId)
  }

  lemma FindGroupFirst(groups: seq<LogGroup>, groupId: string)
    ensures match FindGroup(groups, groupId) case None => NoLive(groups, groupId) case Some(g) => FirstLive(groups, groupId, g)
  {
    FirstFrom(groups, groupId, 0);
  }

  lemma {:induction false} FirstFrom(groups: seq<LogGroup>, groupId: string, i: nat)
    requires i <= |groups| && forall j :: 0 <= j < i ==> !(groups[j].live && groups[j].groupId == groupId)
    ensures match FindGroupFrom(groups, groupId, i) case None => NoLive(groups, groupId) case Some(g) => FirstLive(groups, groupId, g)
    decreases |groups| - i
  {
    if i == |groups| || (groups[i].live && groups[i].groupId == groupId) {
    } else {
      FirstFrom(groups, groupId, i + 1);
    }
  }

  /** An upload into a group always adds a record when it succeeds: to the first live group of that id,
      which grows by the upload, or to a new one of its size. */
  lemma GroupUploadOutcome(s: Store, id: string, groupId: string, u: Upload, now: int, f: UploadFaults)
    ensures var (s', ok) := CreateGroupFile(s, id, groupId, u, now, f);
            && (ok <==> id != "" && (id in s.files || f.saving == Written) && !f.lookupFails && !f.writeFails)
            && FileStored(s.files, s'.files, id, u.bytes, ok)
            && (!ok ==> s'.rows == s.rows && s'.groups == s.groups)
            && (ok ==>
                  && |s'.rows| == |s.rows| + 1 && s'.rows[..|s.rows|] == s.rows
                  && (NoLive(s.groups, groupId) ==>
                        && s'.groups == s.groups + [LogGroup(groupId, u.size, true)]
                        && IsRecord(s'.rows[|s.rows|], id, u, now, Some(|s.groups|)))
                  && (forall g: nat :: FirstLive(s.groups, groupId, g) ==>
                        && |s'.groups| == |s.groups|
                        && (forall h :: 0 <= h < |s.groups| && h != g ==> s'.groups[h] == s.groups[h])
                        && s'.groups[g] == LogGroup(groupId, s.groups[g].size + u.size, true)
                        && IsRecord(s'.rows[|s.rows|], id, u, now, Some(g))))
  {
    FindGroupFirst(s.groups, groupId);
  }

  lemma {:induction false} FindFirst(rows: seq<Row>, id: string) returns (i: nat)
    requires Find(rows, id).Some?
    ensures i < |rows| && Find(rows, id).value == rows[i] && Listed(rows[i], id) && forall j :: 0 <= j < i ==> !Listed(rows[j], id)
  {
    i := 0;
    if !Listed(rows[0], id) {
      var k := FindFirst(rows[1..], id);
      i := k + 1;
      forall j | 0 <= j < i ensures !Listed(rows[j], id) { assert j > 0 ==> rows[j] == rows[1..][j - 1]; }
    }
  }

  /** A download succeeds exactly when the file is stored and a live row lists it; it has the stored bytes
      and the name the file was first listed under. */
  lemma DownloadOutcome(s: Store, id: string)
    requires Sane(s)
    ensures GetFile(s, id).Some? <==> id in s.files && Lists(s.rows, id)
    ensures GetFile(s, id).Some? ==>
              && GetFile(s, id).value.1 == s.files[id]
              && exists i :: && 0 <= i < |s.rows| && s.rows[i].live && s.rows[i].fileId == id && s.rows[i].name == GetFile(s, id).value.0
                             && forall j :: 0 <= j < i ==> !(s.rows[j].live && s.rows[j].fileId == id)
  {
    FindIsListed(s, id);
    if GetFile(s, id).Some? {
      var i := FindFirst(s.rows, id);
      forall j | 0 <= j < i ensures !(s.rows[j].live && s.rows[j].fileId == id) { assert s.rows[j] in s.rows; }
    }
  }

  /** A deletion succeeds exactly when neither the storage nor the database fails on a named file, and then
      the file and all live rows of it are gone; whatever happens, no other file, row or group changes, and
      a failure leaves the rows as they are. */
  lemma DeletionOutcome(s: Store, id: string, f: Deletion)
    ensures var (s', ok) := DeleteFile(s, id, f);
            && (ok <==> id != "" && f == Done)
            && (ok ==> id !in s'.files && !Lists(s'.rows, id))
            && (f == DbFails && id != "" ==> id !in s'.files)
            && (f == StorageFails ==> s'.files == s.files)
            && (!ok ==> s'.rows == s.rows)
            && SameElsewhere(s.files, s'.files, id) && s'.groups == s.groups
            && |s'.rows| == |s.rows|
            && forall i :: 0 <= i < |s.rows| ==>
                 s'.rows[i] == if ok && s.rows[i].fileId == id then s.rows[i].(live := false) else s.rows[i]
  {
    Forgotten(s.rows, id);
  }

  /** Rows and files of other ids are as they were. */
  ghost predicate OthersKept(s: Store, s': Store, ids: set<string>) {
    && |s'.rows| == |s.rows|
    && (forall i :: 0 <= i < |s.rows| && s.rows[i].fileId !in ids ==> s'.rows[i] == s.rows[i])
    && (forall i :: 0 <= i < |s.rows| ==> s'.rows[i].fileId == s.rows[i].fileId)
    && forall id :: id !in ids ==> (id in s'.files <==> id in s.files) && (id in s.files ==> s'.files[id] == s.files[id])
  }

  lemma {:induction false} DeleteAllOutcome(s: Store, logs: seq<Row>, i: nat, faults: seq<Deletion>, ids: set<string>)
    requires i <= |logs| && forall l :: l in logs ==> l.fileId in ids && l.fileId != ""
    ensures var (s', ok) := DeleteAll(s, logs, i, faults);
            && OthersKept(s, s', ids) && s'.groups == s.groups
            && (ok <==> forall k :: i <= k < |logs| ==> At(faults, k) == Done)
    decreases |logs| - i
  {
    if i == |logs| {
    } else {
      var (s1, ok) := DeleteFile(s, logs[i].fileId, At(faults, i));
      assert logs[i] in logs && (ok <==> At(faults, i) == Done);
      DeleteAllOutcome(s1, logs, i + 1, faults, ids);
    }
  }

  /** Deleting a group succeeds without effect when the id has no live group. Otherwise it succeeds exactly
      when nothing fails on the way, and then that one group is deleted and holds no live row; whatever
      happens, files the group did not list keep their rows and contents, and other groups are kept. */
  lemma GroupDeletionOutcome(s: Store, groupId: string, g: nat, logs: seq<Row>, faults: seq<Deletion>, lookupFails: bool, deleteFails: bool)
    requires Sane(s) && (FirstLive(s.groups, groupId, g) ==> GroupLogs(s.rows, g, logs))
    ensures var (s', ok) := DeleteGroup(s, groupId, logs, faults, lookupFails, deleteFails);
            && (lookupFails || NoLive(s.groups, groupId) ==> s' == s && ok == !lookupFails)
            && (FirstLive(s.groups, groupId, g) && !lookupFails ==>
                  && (ok <==> !deleteFails && forall k :: 0 <= k < |logs| ==> At(faults, k) == Done)
                  && OthersKept(s, s', set l | l in logs :: l.fileId)
                  && s'.groups == (if ok then s.groups[g := s.groups[g].(live := false)] else s.groups)
                  && (ok ==> forall x :: x in s'.rows && x.live ==> x.group != Some(g)))
  {
    FindGroupFirst(s.groups, groupId);
    if FirstLive(s.groups, groupId, g) && !lookupFails {
      assert FindGroup(s.groups, groupId) == Some(g);
      var ids := set l | l in logs :: l.fileId;
      DeleteAllOutcome(s, logs, 0, faults, ids);
      if DeleteGroup(s, groupId, logs, faults, lookupFails, deleteFails).1 {
        DeleteGroupClears(s, groupId, logs, faults, lookupFails, deleteFails);
      }
    }
  }

  /** CountLogsSize is the sum of the sizes of the live Saved rows. */
  lemma {:induction false} TotalCounts(rows: seq<Row>)
    ensures Total(rows) == Paid(rows, set i: nat | i < |rows| && rows[i].live && rows[i].status == Saved)
  {
    if rows == [] {
    } else {
      var n := |rows| - 1;
      var ids, init := set i: nat | i < |rows| && rows[i].live && rows[i].status == Saved,
                       set i: nat | i < n && rows[..n][i].live && rows[..n][i].status == Saved;
      TotalCounts(rows[..n]);
      PaidWithin(rows[..n], ids, init);
    }
  }

  /** Only the numbers below the length count. */
  lemma {:induction false} PaidWithin(rows: seq<Row>, a: set<nat>, b: set<nat>)
    requires forall i: nat :: i < |rows| ==> (i in a <==> i in b)
    ensures Paid(rows, a) == Paid(rows, b)
  {
    if rows == [] {
    } else {
      PaidWithin(rows[..|rows| - 1], a, b);
    }
  }
}
