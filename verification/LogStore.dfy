/** The log service of one node. */
module LogStore {
  import opened Messages
  import opened Tables

  // A value: the metadata tables and the stored files, and what each operation does to them when any storage
  // or database call may fail.

  type Bytes = seq<bv8>

  datatype Store = Store(rows: seq<Row>, groups: seq<LogGroup>, files: map<string, Bytes>)

  datatype Upload = Upload(bytes: Bytes, name: string, size: nat, tags: seq<Tag>)

  /** How writing a new file goes: a failed write may leave the first `n` bytes behind. */
  datatype Saving = Written | Refused | Torn(n: nat)

  datatype UploadFaults = UploadFaults(saving: Saving, lookupFails: bool, writeFails: bool)

  datatype Deletion = Done | StorageFails | DbFails

  /** At most this many rows are looked at by one cleaning pass. */
  const BATCH: nat := 1000

  function FileId(machine: string, digest: string): string {
    machine + "." + digest
  }

  // ---- storage ----

  /** A stored file is never overwritten. */
  function SaveLog(files: map<string, Bytes>, fileId: string, bytes: Bytes, saving: Saving): (map<string, Bytes>, bool) {
    if fileId == "" then (files, false)
    else if fileId in files then (files, true)
    else match saving
      case Written => (files[fileId := bytes], true)
      case Refused => (files, false)
      case Torn(n) => (files[fileId := if n < |bytes| then bytes[..n] else bytes], false)
  }

  // ---- uploads ----

  function LogRow(s: Store, fileId: string, u: Upload, now: int, group: Option<nat>): Row {
    Row(|s.rows|, fileId, u.name, u.size, Saved, now, group, true, u.tags)
  }

  /** CreateLog adds no second row for a file that has a live Saved one. */
  function CreateLog(s: Store, x: Row, lookupFails: bool, writeFails: bool): (Store, bool) {
    if lookupFails then (s, false)
    else if Find(s.rows, x.fileId).Some? then (s, true)
    else if writeFails then (s, false)
    else (s.(rows := s.rows + [x]), true)
  }

  function CreateFile(s: Store, fileId: string, u: Upload, now: int, f: UploadFaults): (Store, bool) {
    var (files, saved) := SaveLog(s.files, fileId, u.bytes, f.saving);
    var s1 := s.(files := files);
    if !saved then (s1, false)
    else CreateLog(s1, LogRow(s, fileId, u, now, None), f.lookupFails, f.writeFails)
  }

  /** FindLogGroup: the first live group of that id. */
  function FindGroup(groups: seq<LogGroup>, groupId: string): (r: Option<nat>)
    ensures r.Some? ==> r.value < |groups| && groups[r.value].live && groups[r.value].groupId == groupId
    ensures r.None? ==> forall g :: g in groups ==> !(g.live && g.groupId == groupId)
  {
    FindGroupFrom(groups, groupId, 0)
  }

  function FindGroupFrom(groups: seq<LogGroup>, groupId: string, i: nat): (r: Option<nat>)
    requires i <= |groups|
    ensures r.Some? ==> r.value < |groups| && groups[r.value].live && groups[r.value].groupId == groupId
    ensures r.None? ==> forall j :: i <= j < |groups| ==> !(groups[j].live && groups[j].groupId == groupId)
    decreases |groups| - i
  {
    if i == |groups| then None
    else if groups[i].live && groups[i].groupId == groupId then Some(i)
    else FindGroupFrom(groups, groupId, i + 1)
  }

  /** A new group starts with its first file's size; a later upload adds a row whether or not the
      file already has one, and grows the group. */
  function CreateGroupFile(s: Store, fileId: string, groupId: string, u: Upload, now: int, f: UploadFaults): (Store, bool) {
    var (files, saved) := SaveLog(s.files, fileId, u.bytes, f.saving);
    var s1 := s.(files := files);
    if !saved || f.lookupFails then (s1, false)
    else if f.writeFails then (s1, false)
    else match FindGroup(s.groups, groupId)
      case None =>
        (Store(s.rows + [LogRow(s, fileId, u, now, Some(|s.groups|))], s.groups + [LogGroup(groupId, u.size, true)], files), true)
      case Some(g) =>
        (Store(s.rows + [LogRow(s, fileId, u, now, Some(g))], s.groups[g := s.groups[g].(size := s.groups[g].size + u.size)], files), true)
  }

  /** What GetFile returns: the stored bytes under the name of the first live row. */
  function GetFile(s: Store, fileId: string): Option<(string, Bytes)> {
    match Find(s.rows, fileId)
    case None => None
    case Some(x) => if fileId == "" || fileId !in s.files then None else Some((x.name, s.files[fileId]))
  }

  // ---- deletion ----

  /** DeleteFile: first the stored file, then every row of it. */
  function DeleteFile(s: Store, fileId: string, f: Deletion): (Store, bool) {
    if fileId == "" || f.StorageFails? then (s, false)
    else if f.DbFails? then (s.(files := s.files - {fileId}), false)
    else (s.(files := s.files - {fileId}, rows := Forget(s.rows, fileId)), true)
  }

  function At(faults: seq<Deletion>, i: nat): Deletion {
    if i < |faults| then faults[i] else Done
  }

  /** `logs` are the live rows of group `g`, in some order. */
  ghost predicate GroupLogs(rows: seq<Row>, g: nat, logs: seq<Row>) {
    forall x :: x in logs <==> x in rows && x.live && x.group == Some(g)
  }

  /** DeleteLogGroup's loop stops at the first failure. */
  function DeleteAll(s: Store, logs: seq<Row>, i: nat, faults: seq<Deletion>): (Store, bool)
    requires i <= |logs|
    decreases |logs| - i
  {
    if i == |logs| then (s, true)
    else
      var (s1, ok) := DeleteFile(s, logs[i].fileId, At(faults, i));
      if ok then DeleteAll(s1, logs, i + 1, faults) else (s1, false)
  }

  function DeleteGroup(s: Store, groupId: string, logs: seq<Row>, faults: seq<Deletion>, lookupFails: bool, deleteFails: bool): (Store, bool) {
    if lookupFails then (s, false)
    else match FindGroup(s.groups, groupId)
      case None => (s, true)
      case Some(g) =>
        var (s1, ok) := DeleteAll(s, logs, 0, faults);
        if !ok || deleteFails then (s1, false)
        else (s1.(groups := s.groups[g := s.groups[g].(live := false)]), true)
  }

  // ---- cleaning ----

  /** CleanFileBySize's loop: stop when nothing more is owed; a failed deletion pays nothing. */
  function CleanOldest(s: Store, logs: seq<Row>, i: nat, owed: int, faults: seq<Deletion>): (Store, int)
    requires i <= |logs|
    decreases |logs| - i
  {
    if i == |logs| || owed <= 0 then (s, owed)
    else
      var (s1, ok) := DeleteFile(s, logs[i].fileId, At(faults, i));
      CleanOldest(s1, logs, i + 1, if ok then owed - logs[i].size else owed, faults)
  }

  /** One size pass; the second result is what is still owed. `order` is the database's answer. */
  function CleanBySize(s: Store, max: int, order: seq<Row>, faults: seq<Deletion>): (Store, int) {
    if Total(s.rows) < max then (s, Total(s.rows) - max)
    else CleanOldest(s, Window(order, BATCH), 0, Total(s.rows) - max, faults)
  }

  /** CleanFileByTime's loop goes on after a failure. */
  function CleanOld(s: Store, logs: seq<Row>, i: nat, faults: seq<Deletion>): Store
    requires i <= |logs|
    decreases |logs| - i
  {
    if i == |logs| then s
    else CleanOld(DeleteFile(s, logs[i].fileId, At(faults, i)).0, logs, i + 1, faults)
  }

  function CleanByTime(s: Store, order: seq<Row>, faults: seq<Deletion>): Store {
    CleanOld(s, Window(order, BATCH), 0, faults)
  }

  /** The answers and failures one CleanFile call meets; a pass whose query fails does nothing. */
  datatype Cleaning = Cleaning(
    sizeFails: bool, oldest: seq<Row>, sizeFaults: seq<Deletion>, timeFails: bool, timedOut: seq<Row>, timeFaults: seq<Deletion>)

  function CleanFile(s: Store, max: int, c: Cleaning): Store {
    var s1 := if c.sizeFails then s else CleanBySize(s, max, c.oldest, c.sizeFaults).0;
    if c.timeFails then s1 else CleanByTime(s1, c.timedOut, c.timeFaults)
  }

  /** The answers are right for the tables they are asked of. */
  ghost predicate RightAnswers(s: Store, max: int, before: int, c: Cleaning) {
    && (!c.sizeFails ==> Ordered(s.rows, c.oldest, None, false))
    && (!c.timeFails ==>
          Ordered((if c.sizeFails then s else CleanBySize(s, max, c.oldest, c.sizeFaults).0).rows, c.timedOut, Some(before), true))
  }

  // ---- what every operation keeps ----

  predicate Sane(s: Store) {
    && Numbered(s.rows)
    && forall x :: x in s.rows ==> x.status == Saved && x.fileId != "" && (x.group.Some? ==> x.group.value < |s.groups|)
  }

  /** A live row of the file exists. */
  ghost predicate Lists(rows: seq<Row>, fileId: string) {
    exists x :: x in rows && x.live && x.fileId == fileId
  }

  /** No live row lacks its file. */
  ghost predicate Covered(s: Store) {
    forall x :: x in s.rows && x.live ==> x.fileId in s.files
  }

  /** The stored files are exactly those of the live rows. */
  ghost predicate Exact(s: Store) {
    forall fileId :: fileId in s.files <==> Lists(s.rows, fileId)
  }

  lemma Forgotten(rows: seq<Row>, fileId: string)
    ensures !Lists(Forget(rows, fileId), fileId)
    ensures forall other :: other != fileId ==> (Lists(Forget(rows, fileId), other) <==> Lists(rows, other))
  {
    forall other | other != fileId ensures Lists(Forget(rows, fileId), other) <==> Lists(rows, other) {
      if Lists(rows, other) {
        var x :| x in rows && x.live && x.fileId == other;
        var i :| 0 <= i < |rows| && rows[i] == x;
        assert Forget(rows, fileId)[i] == x;
      }
    }
  }

  lemma SaneDelete(s: Store, fileId: string, f: Deletion)
    requires Sane(s)
    ensures Sane(DeleteFile(s, fileId, f).0) && Faded(s.rows, DeleteFile(s, fileId, f).0.rows)
    ensures DeleteFile(s, fileId, f).0.groups == s.groups
  {
  }

  /** A deletion keeps coverage exactly when it does not fail between the file and a live row of it. */
  lemma DeleteCovers(s: Store, fileId: string, f: Deletion)
    requires Covered(s) && fileId != ""
    ensures Covered(DeleteFile(s, fileId, f).0) <==> !(f.DbFails? && Lists(s.rows, fileId))
  {
    var s' := DeleteFile(s, fileId, f).0;
    if f.DbFails? {
      if Lists(s.rows, fileId) {
        var x :| x in s.rows && x.live && x.fileId == fileId;
        assert !Covered(s');
      }
    } else if f.Done? {
      forall x | x in s'.rows && x.live ensures x.fileId in s'.files {
        assert x in s.rows && x.fileId != fileId;
      }
    }
  }

  lemma DeleteExact(s: Store, fileId: string)
    requires Exact(s) && fileId != ""
    ensures Exact(DeleteFile(s, fileId, Done).0)
  {
    Forgotten(s.rows, fileId);
  }
}
