/** The file storage, the database handle and the core service as objects, each method proved against
    the value functions of LogStore. A parameter says which of the method's calls fail. */
module StoreObjects {
  import opened Messages
  import opened Tables
  import opened LogStore
  import opened Retention
  import opened Agreement
  import opened Groups
  import opened Queries
  import Pages
  import Paging
  import Sorting
  import Ties

  /** storage/file.go: the files below the log directory. */
  class FileApi {
    var files: map<string, Bytes>

    constructor ()
      ensures files == map[]
    {
      files := map[];
    }

    method SaveLog(fileId: string, bytes: Bytes, saving: Saving) returns (ok: bool)
      modifies this
      ensures (files, ok) == LogStore.SaveLog(old(files), fileId, bytes, saving)
    {
      if fileId == "" { return false; }
      if fileId in files { return true; }
      match saving {
        case Written =>
          files := files[fileId := bytes];
          ok := true;
        case Refused =>
          ok := false;
        case Torn(n) =>
          files := files[fileId := if n < |bytes| then bytes[..n] else bytes];
          ok := false;
      }
    }

    method GetLog(fileId: string) returns (r: Option<Bytes>)
      ensures r == if fileId != "" && fileId in files then Some(files[fileId]) else None
    {
      if fileId == "" { return None; }
      if fileId !in files { return None; }
      r := Some(files[fileId]);
    }

    method RemoveLog(fileId: string, fails: bool) returns (ok: bool)
      modifies this
      ensures ok <==> fileId != "" && !fails
      ensures files == if ok then old(files) - {fileId} else old(files)
    {
      if fileId == "" || fails { return false; }
      if fileId in files { files := files - {fileId}; }
      ok := true;
    }
  }

  function LogsOf(rows: seq<Row>, g: nat): (r: seq<Row>)
    ensures GroupLogs(rows, g, r)
  {
    if rows == [] then []
    else
      assert rows == [rows[0]] + rows[1..];
      (if rows[0].live && rows[0].group == Some(g) then [rows[0]] else []) + LogsOf(rows[1..], g)
  }

  /** A row as the other nodes see it: the primary key is not sent. */
  function Sent(x: Row): Pages.Entry {
    Pages.Entry(0, x.createdAt, x.fileId)
  }

  function Listing(order: seq<Row>): seq<Pages.Entry> {
    seq(|order|, i requires 0 <= i < |order| => Sent(order[i]))
  }

  lemma ListingDescends(order: seq<Row>)
    requires Sorting.Sorted(order, ByTime(true))
    ensures Ties.ByAge(Listing(order))
  {
    forall i, j | 0 <= i < j < |order| ensures Listing(order)[i].at >= Listing(order)[j].at {
      assert ByTime(true)(order[i], order[j]);
    }
  }

  lemma FoundByAge(rows: seq<Row>, found: seq<Row>, query: Query, like: Like)
    requires JoinsInOrder(rows, found, query, like)
    ensures Ties.ByAge(Listing(found))
  {
    ListingDescends(found);
  }

  /** The answer to a list query: an error for a page or a size that is not positive, else how many rows
      `order` has, and the file ids and creation times of `size` of them from the start of the page on. */
  predicate PageOf(r: Option<Pages.PageData>, order: seq<Row>, q: Query) {
    && (r.Some? <==> q.size > 0 && q.page > 0)
    && (r.Some? ==>
          var data, offset := r.value.data, (q.page - 1) * q.size;
          && r.value.total == |order|
          && |data| == (if |order| <= offset then 0 else if |order| - offset <= q.size then |order| - offset else q.size)
          && forall k :: 0 <= k < |data| ==>
               0 <= offset + k < |order| && data[k] == Pages.Entry(0, order[offset + k].createdAt, order[offset + k].fileId))
  }

  lemma PageHolds(order: seq<Row>, q: Query)
    ensures PageOf(Paging.FindLogs(Listing(order), q.size, q.page), order, q)
  {
    if q.size > 0 && q.page > 0 { Paging.OffsetGrows(q.size, q.page); }
  }

  lemma ListedServed(s: Store, r: Option<Pages.PageData>, order: seq<Row>, q: Query, like: Like)
    requires Sane(s) && r.Some? && PageOf(r, order, q) && forall x :: x in order <==> x in s.rows && Matches(x, q, like)
    ensures Covered(s) ==> forall e :: e in r.value.data ==> LogStore.GetFile(s, e.fileId).Some?
  {
    if Covered(s) {
      forall e | e in r.value.data ensures LogStore.GetFile(s, e.fileId).Some? {
        var k :| 0 <= k < |r.value.data| && r.value.data[k] == e;
        var x := order[(q.page - 1) * q.size + k];
        assert x in order && Listed(x, e.fileId);
      }
    }
  }

  /** `order` is the live rows, each once, oldest first, and `logs` the first `n` of them. */
  ghost predicate Oldest(rows: seq<Row>, order: seq<Row>, logs: seq<Row>, n: nat) {
    && logs <= order && |logs| == (if |order| < n then |order| else n)
    && (forall x :: x in order <==> x in rows && x.live)
    && forall i, j :: 0 <= i < j < |order| ==> order[i].createdAt <= order[j].createdAt && order[i].id != order[j].id
  }

  /** `order` is the live rows created before a time, each once, newest first, and `logs` the first `n` of them. */
  ghost predicate Expired(rows: seq<Row>, order: seq<Row>, logs: seq<Row>, before: int, n: nat) {
    && logs <= order && |logs| == (if |order| < n then |order| else n)
    && (forall x :: x in order <==> x in rows && x.live && x.createdAt < before)
    && forall i, j :: 0 <= i < j < |order| ==> order[i].createdAt >= order[j].createdAt && order[i].id != order[j].id
  }

  lemma BySizeIs(s: Store, max: int, order: seq<Row>, faults: seq<Deletion>)
    ensures CleanBySize(s, max, order, faults)
            == if Total(s.rows) < max then (s, Total(s.rows) - max)
               else CleanOldest(s, Window(order, BATCH), 0, Total(s.rows) - max, faults)
  {
  }

  lemma StoppedWithin(s: Store, max: int, order: seq<Row>, faults: seq<Deletion>)
    requires Sane(s) && Ordered(s.rows, order, None, false) && Total(s.rows) >= max
    ensures var r := CleanOldest(s, Window(order, BATCH), 0, Total(s.rows) - max, faults);
            CleanBySize(s, max, order, faults) == r && (r.1 <= 0 ==> Total(r.0.rows) <= max)
  {
    hide Sane, Ordered, Total, CleanOldest, Window;
    SizeHonest(s, max, order, faults);
  }

  lemma OldestStep(s: Store, logs: seq<Row>, i: nat, owed: int, faults: seq<Deletion>)
    requires i < |logs|
    ensures var (s1, ok) := LogStore.DeleteFile(s, logs[i].fileId, At(faults, i));
            CleanOldest(s, logs, i, owed, faults)
            == if owed <= 0 then (s, owed) else CleanOldest(s1, logs, i + 1, if ok then owed - logs[i].size else owed, faults)
  {
  }

  lemma OldestEnd(s: Store, logs: seq<Row>, owed: int, faults: seq<Deletion>)
    ensures CleanOldest(s, logs, |logs|, owed, faults) == (s, owed)
  {
  }

  /** OFFSET and LIMIT. */
  lemma PageIs(all: seq<Pages.Entry>, size: int, page: int)
    ensures size <= 0 || page <= 0 ==> Paging.FindLogs(all, size, page) == None
    ensures size > 0 && page > 0 ==>
              var offset := Paging.Offset(size, page);
              && offset >= 0
              && var data := if offset < |all| then all[offset..] else [];
              Paging.FindLogs(all, size, page) == Some(Pages.PageData(|all|, if size < |data| then data[..size] else data))
  {
    if size > 0 && page > 0 {
      Paging.OffsetGrows(size, page);
      CutOffset(all, Paging.Offset(size, page), size);
    }
  }

  lemma CutOffset(all: seq<Pages.Entry>, offset: nat, size: nat)
    ensures var data := if offset < |all| then all[offset..] else [];
            (if size < |data| then data[..size] else data) == all[Paging.Cut(all, offset)..Paging.Cut(all, offset + size)]
  {
  }

  /** data/db.go. */
  class Data {
    var rows: seq<Row>
    var groups: seq<LogGroup>

    constructor ()
      ensures rows == [] && groups == []
    {
      rows, groups := [], [];
    }

    method CreateLog(x: Row, lookupFails: bool, writeFails: bool) returns (ok: bool)
      modifies this
      ensures forall files :: (Store(rows, groups, files), ok) ==
                LogStore.CreateLog(Store(old(rows), old(groups), files), x, lookupFails, writeFails)
    {
      if lookupFails { return false; }
      if Find(rows, x.fileId).Some? { return true; }
      if writeFails { return false; }
      rows := rows + [x];
      ok := true;
    }

    method CreateLogGroup(group: LogGroup, log: Row, fails: bool) returns (ok: bool)
      modifies this
      ensures ok <==> !fails
      ensures rows == if ok then old(rows) + [log] else old(rows)
      ensures groups == if ok then old(groups) + [group] else old(groups)
    {
      ok := !fails;
      if ok { rows, groups := rows + [log], groups + [group]; }
    }

    method UpdateLogGroup(g: nat, size: nat, log: Row, fails: bool) returns (ok: bool)
      requires g < |groups|
      modifies this
      ensures ok <==> !fails
      ensures rows == if ok then old(rows) + [log] else old(rows)
      ensures groups == if ok then old(groups)[g := old(groups)[g].(size := size)] else old(groups)
    {
      ok := !fails;
      if ok { rows, groups := rows + [log], groups[g := groups[g].(size := size)]; }
    }

    method DeleteLogGroup(g: nat, fails: bool) returns (ok: bool)
      requires g < |groups|
      modifies this`groups
      ensures ok <==> !fails
      ensures groups == if ok then old(groups)[g := old(groups)[g].(live := false)] else old(groups)
    {
      ok := !fails;
      if ok { groups := groups[g := groups[g].(live := false)]; }
    }

    method DeleteLogByFileId(fileId: string, fails: bool) returns (ok: bool)
      modifies this`rows
      ensures ok <==> !fails
      ensures rows == if ok then Forget(old(rows), fileId) else old(rows)
    {
      ok := !fails;
      if ok { rows := Forget(rows, fileId); }
    }

    /** Nothing but the order of creation is promised about the answer. */
    method FindOldestLogs(n: nat) returns (logs: seq<Row>, ghost order: seq<Row>)
      requires Numbered(rows)
      ensures Ordered(rows, order, None, false) && logs == Window(order, n)
      ensures Oldest(rows, order, logs, n)
    {
      AnswerOrdered(rows, None, false);
      order := Answer(rows, None, false);
      logs := Window(Answer(rows, None, false), n);
    }

    /** One node's page of the rows its query joins, newest first. */
    method FindLogs(query: Query, like: Like) returns (r: Option<Pages.PageData>, ghost order: seq<Row>)
      requires Numbered(rows)
      ensures JoinsInOrder(rows, order, query, like) && Ties.ByAge(Listing(order))
      ensures r == Paging.FindLogs(Listing(order), query.size, query.page)
      ensures forall x :: x in order <==> x in rows && Matches(x, query, like)
      ensures forall i, j :: 0 <= i < j < |order| ==> order[i].createdAt >= order[j].createdAt
      ensures PageOf(r, order, query)
    {
      FoundJoins(rows, query, like);
      hide Found, JoinsInOrder, Paging.FindLogs, Paging.Offset, Matches, PageOf;
      var found := Found(rows, query, like);
      order := found;
      ListedIff(rows, found, query, like);
      PageHolds(found, query);
      FoundByAge(rows, found, query, like);
      var all := Listing(found);
      PageIs(all, query.size, query.page);
      if query.size <= 0 { return None, order; }
      if query.page <= 0 { return None, order; }
      var offset := Paging.Offset(query.size, query.page);
      var data := if offset < |all| then all[offset..] else [];
      if query.size < |data| { data := data[..query.size]; }
      var total := |all|;
      r := Some(Pages.PageData(total, data));
    }

    method FindTimeoutLogs(before: int, n: nat) returns (logs: seq<Row>, ghost order: seq<Row>)
      requires Numbered(rows)
      ensures Ordered(rows, order, Some(before), true) && logs == Window(order, n)
      ensures Expired(rows, order, logs, before, n)
    {
      AnswerOrdered(rows, Some(before), true);
      order := Answer(rows, Some(before), true);
      logs := Window(Answer(rows, Some(before), true), n);
    }
  }

  /** serve/route/core.go: one node with local storage. */
  class CoreApi {
    const storage: FileApi
    const data: Data
    const service: Service
    const maxLifeOfHour: nat

    constructor (service: Service, maxLifeOfHour: nat)
      ensures this.service == service && this.maxLifeOfHour == maxLifeOfHour
      ensures fresh(storage) && fresh(data) && Abs() == EMPTY
    {
      storage := new FileApi();
      data := new Data();
      this.service := service;
      this.maxLifeOfHour := maxLifeOfHour;
    }

    ghost function Abs(): Store
      reads storage, data
    {
      Store(data.rows, data.groups, storage.files)
    }

    method CreateFile(u: Upload, now: int, f: UploadFaults) returns (ok: bool)
      modifies storage, data
      ensures (Abs(), ok) == LogStore.CreateFile(old(Abs()), service.Id(u.bytes), u, now, f)
    {
      var fileId := service.Id(u.bytes);
      ok := storage.SaveLog(fileId, u.bytes, f.saving);
      if !ok { return; }
      var log := Row(|data.rows|, fileId, u.name, u.size, Saved, now, None, true, u.tags);
      ok := data.CreateLog(log, f.lookupFails, f.writeFails);
    }

    method CreateLogGroupFile(groupId: string, u: Upload, now: int, f: UploadFaults) returns (ok: bool)
      modifies storage, data
      ensures (Abs(), ok) == LogStore.CreateGroupFile(old(Abs()), service.Id(u.bytes), groupId, u, now, f)
    {
      var fileId := service.Id(u.bytes);
      ok := storage.SaveLog(fileId, u.bytes, f.saving);
      if !ok { return; }
      if f.lookupFails { return false; }
      var logGroup := FindGroup(data.groups, groupId);
      var log := Row(|data.rows|, fileId, u.name, u.size, Saved, now, None, true, u.tags);
      if logGroup.None? {
        ok := data.CreateLogGroup(LogGroup(groupId, u.size, true), log.(group := Some(|data.groups|)), f.writeFails);
        return;
      }
      var g := logGroup.value;
      ok := data.UpdateLogGroup(g, data.groups[g].size + u.size, log.(group := logGroup), f.writeFails);
    }

    method GetFile(fileId: string) returns (r: Option<(string, Bytes)>)
      ensures r == LogStore.GetFile(Abs(), fileId)
    {
      var fileData := Find(data.rows, fileId);
      if fileData.None? { return None; }
      var logFile := storage.GetLog(fileId);
      if logFile.None? { return None; }
      r := Some((fileData.value.name, logFile.value));
    }

    /** CoreApi.FindLogs, this node's part of a list. Every file it lists can be downloaded here, as long
        as no live row lacks its file. */
    method FindLogs(query: Query, like: Like) returns (r: Option<Pages.PageData>, ghost order: seq<Row>)
      requires Sane(Abs())
      ensures forall x :: x in order <==> x in data.rows && Matches(x, query, like)
      ensures forall i, j :: 0 <= i < j < |order| ==> order[i].createdAt >= order[j].createdAt
      ensures PageOf(r, order, query)
      ensures Covered(Abs()) && r.Some? ==> forall e :: e in r.value.data ==> LogStore.GetFile(Abs(), e.fileId).Some?
    {
      r, order := data.FindLogs(query, like);
      if r.Some? { ListedServed(Abs(), r, order, query, like); }
    }

    method DeleteFile(fileId: string, f: Deletion) returns (ok: bool)
      modifies storage, data`rows
      ensures (Abs(), ok) == LogStore.DeleteFile(old(Abs()), fileId, f)
    {
      ok := storage.RemoveLog(fileId, f.StorageFails?);
      if !ok { return; }
      ok := data.DeleteLogByFileId(fileId, f.DbFails?);
    }

    /** On success nothing the group listed is left, neither row nor file. */
    method DeleteLogGroup(groupId: string, faults: seq<Deletion>, lookupFails: bool, deleteFails: bool)
      returns (ok: bool, ghost logs: seq<Row>)
      requires Sane(Abs())
      modifies storage, data
      ensures var g := FindGroup(old(data.groups), groupId); g.Some? ==> GroupLogs(old(data.rows), g.value, logs)
      ensures (Abs(), ok) == LogStore.DeleteGroup(old(Abs()), groupId, logs, faults, lookupFails, deleteFails)
      ensures ok && FindGroup(old(data.groups), groupId).Some? ==>
                forall l :: l in logs ==> !Lists(data.rows, l.fileId) && l.fileId !in storage.files
    {
      logs := if FindGroup(data.groups, groupId).Some? then LogsOf(data.rows, FindGroup(data.groups, groupId).value) else [];
      if lookupFails { return false, logs; }
      var logGroup := FindGroup(data.groups, groupId);
      if logGroup.None? { return true, logs; }
      var listed := LogsOf(data.rows, logGroup.value);
      ghost var was := Abs();
      var i := 0;
      while i < |listed|
        invariant i <= |listed| && data.groups == was.groups
        invariant DeleteAll(Abs(), listed, i, faults) == DeleteAll(was, listed, 0, faults)
      {
        ok := DeleteFile(listed[i].fileId, if i < |faults| then faults[i] else Done);
        if !ok { return; }
        i := i + 1;
      }
      ok := data.DeleteLogGroup(logGroup.value, deleteFails);
      if ok { DeleteGroupClears(was, groupId, logs, faults, lookupFails, deleteFails); }
    }

    /** A pass that stops because nothing more is owed leaves the Saved total within the limit. */
    method CleanFileBySize(faults: seq<Deletion>, countFails: bool, findFails: bool)
      returns (ok: bool, ghost order: seq<Row>, ghost owed: int)
      requires Sane(Abs())
      modifies storage, data`rows
      ensures ok <==> !countFails && (Total(old(data.rows)) >= service.max ==> !findFails)
      ensures !ok ==> Abs() == old(Abs())
      ensures Ordered(old(data.rows), order, None, false)
      ensures ok ==> (Abs(), owed) == CleanBySize(old(Abs()), service.max, order, faults)
      ensures ok && owed <= 0 ==> Total(data.rows) <= service.max
    {
      ghost var was := Abs();
      assert Numbered(data.rows);
      hide Answer, Ordered, Oldest, Sane, Numbered, Total, CleanOldest, CleanBySize, Window, At, Forget, LogStore.DeleteFile;
      order := Answer(data.rows, None, false);
      AnswerOrdered(data.rows, None, false);
      if countFails { return false, order, 0; }
      var size := Total(data.rows);
      BySizeIs(was, service.max, order, faults);
      if size < service.max { return true, order, size - service.max; }
      var deleteSize := size - service.max;
      if findFails { return false, order, deleteSize; }
      var logs;
      logs, order := data.FindOldestLogs(BATCH);
      StoppedWithin(was, service.max, order, faults);
      var left := DeleteOldest(logs, deleteSize, faults);
      return true, order, left;
    }

    /** Its loop. */
    method DeleteOldest(logs: seq<Row>, owed: int, faults: seq<Deletion>) returns (deleteSize: int)
      modifies storage, data`rows
      ensures (Abs(), deleteSize) == CleanOldest(old(Abs()), logs, 0, owed, faults)
    {
      hide CleanOldest, At, LogStore.DeleteFile;
      deleteSize := owed;
      var i := 0;
      while i < |logs|
        invariant i <= |logs|
        invariant CleanOldest(Abs(), logs, i, deleteSize, faults) == CleanOldest(old(Abs()), logs, 0, owed, faults)
      {
        OldestStep(Abs(), logs, i, deleteSize, faults);
        if deleteSize <= 0 { return; }
        var deleted := DeleteFile(logs[i].fileId, At(faults, i));
        if deleted { deleteSize := deleteSize - logs[i].size; }
        i := i + 1;
      }
      OldestEnd(Abs(), logs, deleteSize, faults);
    }

    method CleanFileByTime(now: int, faults: seq<Deletion>, findFails: bool) returns (ok: bool, ghost order: seq<Row>)
      requires Sane(Abs())
      modifies storage, data`rows
      ensures ok <==> !findFails
      ensures !ok ==> Abs() == old(Abs())
      ensures Ordered(old(data.rows), order, Some(now - maxLifeOfHour * HOUR), true)
      ensures ok ==> Expired(old(data.rows), order, Window(order, BATCH), now - maxLifeOfHour * 3_600_000_000_000, 1000)
      ensures ok ==> Abs() == CleanByTime(old(Abs()), order, faults)
    {
      ghost var was := Abs();
      var before := now - maxLifeOfHour * HOUR;
      hide Answer, Ordered, Expired, Window, Forget, LogStore.DeleteFile;
      order := Answer(data.rows, Some(before), true);
      AnswerOrdered(data.rows, Some(before), true);
      if findFails { return false, order; }
      var logs;
      logs, order := data.FindTimeoutLogs(before, BATCH);
      var i := 0;
      while i < |logs|
        invariant i <= |logs|
        invariant CleanOld(Abs(), logs, i, faults) == CleanOld(was, logs, 0, faults)
      {
        var deleted := DeleteFile(logs[i].fileId, if i < |faults| then faults[i] else Done);
        i := i + 1;
      }
      return true, order;
    }

    /** CleanFile: a pass that fails does not stop the other. */
    method CleanFile(now: int, c: CleaningFaults) returns (ghost answers: Cleaning)
      requires Sane(Abs())
      modifies storage, data`rows
      ensures RightAnswers(old(Abs()), service.max, now - maxLifeOfHour * HOUR, answers)
      ensures Abs() == LogStore.CleanFile(old(Abs()), service.max, answers)
    {
      ghost var was := Abs();
      var ok, oldest, owed := CleanFileBySize(c.sizeFaults, c.countFails, c.oldestFails);
      CleanBySizeFades(was, service.max, oldest, c.sizeFaults);
      var timeOk, timedOut := CleanFileByTime(now, c.timeFaults, c.timedOutFails);
      answers := Cleaning(!ok, oldest, c.sizeFaults, !timeOk, timedOut, c.timeFaults);
    }
  }

  datatype CleaningFaults = CleaningFaults(
    countFails: bool, oldestFails: bool, sizeFaults: seq<Deletion>, timedOutFails: bool, timeFaults: seq<Deletion>)
}
