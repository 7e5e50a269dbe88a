/** The log tables and their queries. */
module Tables {
  import Bags
  import opened Messages
  import Sorting

  // Rows are soft-deleted and never renumbered.

  datatype Tag = Tag(key: string, value: string)

  datatype LogStatus = ErrorLog | CreatedLog | Saved | UnknownLog

  /** A LogData record. `id` is the primary key, `group` the key of the group it belongs to. */
  datatype Row = Row(
    id: nat, fileId: string, name: string, size: nat, status: LogStatus, createdAt: int, group: Option<nat>, live: bool,
    tags: seq<Tag>)

  datatype LogGroup = LogGroup(groupId: string, size: nat, live: bool)

  predicate Numbered(rows: seq<Row>) {
    forall i :: 0 <= i < |rows| ==> rows[i].id == i
  }

  /** DeleteLogByFileId: every row of the file is soft-deleted. */
  function Forget(rows: seq<Row>, fileId: string): (r: seq<Row>)
    ensures |r| == |rows|
    ensures Numbered(rows) ==> Numbered(r)
  {
    seq(|rows|, i requires 0 <= i < |rows| => if rows[i].fileId == fileId then rows[i].(live := false) else rows[i])
  }

  predicate Listed(x: Row, fileId: string) {
    x.live && x.status == Saved && x.fileId == fileId
  }

  /** FindLogByFileId: the first live Saved row of the file, if any. */
  function Find(rows: seq<Row>, fileId: string): (r: Option<Row>)
    ensures r.Some? ==> r.value in rows && Listed(r.value, fileId)
    ensures r.None? ==> forall x :: x in rows ==> !Listed(x, fileId)
  {
    if rows == [] then None
    else if Listed(rows[0], fileId) then Some(rows[0])
    else
      assert rows == [rows[0]] + rows[1..];
      Find(rows[1..], fileId)
  }

  function Counted(x: Row): nat {
    if x.live && x.status == Saved then x.size else 0
  }

  /** CountLogsSize. */
  function Total(rows: seq<Row>): nat {
    if rows == [] then 0 else Total(rows[..|rows| - 1]) + Counted(rows[|rows| - 1])
  }

  function LiveCount(rows: seq<Row>): nat {
    if rows == [] then 0 else LiveCount(rows[..|rows| - 1]) + if rows[|rows| - 1].live then 1 else 0
  }

  /** The sizes of the rows numbered in `ids`. */
  function Paid(rows: seq<Row>, ids: set<nat>): nat {
    if rows == [] then 0
    else Paid(rows[..|rows| - 1], ids) + if |rows| - 1 in ids then rows[|rows| - 1].size else 0
  }

  /** `now` is `was` with some rows deleted. */
  predicate Faded(was: seq<Row>, now: seq<Row>) {
    && |now| == |was|
    && forall i :: 0 <= i < |was| ==> now[i] == was[i] || now[i] == was[i].(live := false)
  }

  lemma FadedPrefix(was: seq<Row>, now: seq<Row>)
    requires Faded(was, now) && was != []
    ensures Faded(was[..|was| - 1], now[..|now| - 1])
  {
    var a, b := was[..|was| - 1], now[..|now| - 1];
    forall i | 0 <= i < |a| ensures b[i] == a[i] || b[i] == a[i].(live := false) {
      assert b[i] == now[i] && a[i] == was[i];
    }
  }

  /** Rows that are gone no longer count towards the total, whatever else is gone with them. */
  lemma {:induction false} PaidOff(was: seq<Row>, now: seq<Row>, ids: set<nat>)
    requires Faded(was, now)
    requires forall i :: i in ids && i < |was| ==> was[i].live && was[i].status == Saved && !now[i].live
    ensures Total(now) + Paid(was, ids) <= Total(was)
  {
    if was == [] {
    } else {
      FadedPrefix(was, now);
      PaidOff(was[..|was| - 1], now[..|now| - 1], ids);
    }
  }

  lemma {:induction false} PaidMore(rows: seq<Row>, ids: set<nat>, k: nat)
    requires k < |rows| && k !in ids
    ensures Paid(rows, ids + {k}) == Paid(rows, ids) + rows[k].size
  {
    if k < |rows| - 1 {
      PaidMore(rows[..|rows| - 1], ids, k);
    } else {
      PaidSame(rows[..|rows| - 1], ids, k);
    }
  }

  lemma {:induction false} PaidSame(rows: seq<Row>, ids: set<nat>, k: nat)
    requires |rows| <= k
    ensures Paid(rows, ids + {k}) == Paid(rows, ids)
  {
    if rows == [] {
    } else {
      PaidSame(rows[..|rows| - 1], ids, k);
    }
  }

  lemma {:induction false} PaidNothing(rows: seq<Row>)
    ensures Paid(rows, {}) == 0
  {
    if rows == [] {
    } else {
      PaidNothing(rows[..|rows| - 1]);
    }
  }

  lemma {:induction false} FadedTotals(was: seq<Row>, now: seq<Row>)
    requires Faded(was, now)
    ensures Total(now) <= Total(was) && LiveCount(now) <= LiveCount(was)
  {
    if was == [] {
    } else {
      FadedPrefix(was, now);
      FadedTotals(was[..|was| - 1], now[..|now| - 1]);
    }
  }

  lemma {:induction false} FewerLive(was: seq<Row>, now: seq<Row>, k: nat)
    requires Faded(was, now) && k < |was| && was[k].live && !now[k].live
    ensures LiveCount(now) < LiveCount(was)
  {
    FadedPrefix(was, now);
    if k < |was| - 1 {
      FewerLive(was[..|was| - 1], now[..|now| - 1], k);
    } else {
      FadedTotals(was[..|was| - 1], now[..|now| - 1]);
    }
  }

  lemma {:induction false} SomeLive(rows: seq<Row>)
    requires Total(rows) > 0
    ensures exists x :: x in rows && x.live && x.status == Saved
  {
    var n := |rows| - 1;
    if Counted(rows[n]) > 0 {
      assert rows[n] in rows;
    } else {
      SomeLive(rows[..n]);
      var x :| x in rows[..n] && x.live && x.status == Saved;
      assert x in rows;
    }
  }

  /** The rows once every file in `ids` has been deleted. */
  function Clear(rows: seq<Row>, ids: set<string>): (r: seq<Row>)
    ensures |r| == |rows|
  {
    seq(|rows|, i requires 0 <= i < |rows| => if rows[i].fileId in ids then rows[i].(live := false) else rows[i])
  }

  /** The bytes that the live rows of the files in `ids` account for. */
  function Holding(rows: seq<Row>, ids: set<string>): nat {
    if rows == [] then 0
    else Holding(rows[..|rows| - 1], ids) + if rows[|rows| - 1].fileId in ids then Counted(rows[|rows| - 1]) else 0
  }

  lemma ForgetClear(rows: seq<Row>, ids: set<string>, fileId: string)
    ensures Forget(Clear(rows, ids), fileId) == Clear(rows, ids + {fileId})
  {
  }

  /** Deleting files takes exactly what their live rows account for off the total. */
  lemma {:induction false} ClearTotal(rows: seq<Row>, ids: set<string>)
    ensures Total(Clear(rows, ids)) + Holding(rows, ids) == Total(rows)
  {
    if rows == [] {
    } else {
      var n := |rows| - 1;
      assert Clear(rows, ids)[..n] == Clear(rows[..n], ids);
      ClearTotal(rows[..n], ids);
    }
  }

  lemma {:induction false} HoldingNone(rows: seq<Row>)
    ensures Holding(rows, {}) == 0
  {
    if rows == [] {
    } else {
      HoldingNone(rows[..|rows| - 1]);
    }
  }

  /** A file whose only live row is row `k` accounts for that row's size. */
  lemma {:induction false} HoldingOne(rows: seq<Row>, ids: set<string>, k: nat)
    requires k < |rows| && rows[k].live && rows[k].status == Saved && rows[k].fileId !in ids
    requires forall i :: 0 <= i < |rows| && i != k && rows[i].live ==> rows[i].fileId != rows[k].fileId
    ensures Holding(rows, ids + {rows[k].fileId}) == Holding(rows, ids) + rows[k].size
  {
    var n := |rows| - 1;
    if k == n {
      HoldingMore(rows[..n], ids, rows[k].fileId);
    } else {
      HoldingOne(rows[..n], ids, k);
    }
  }

  lemma {:induction false} HoldingMore(rows: seq<Row>, ids: set<string>, fileId: string)
    requires forall i :: 0 <= i < |rows| && rows[i].live ==> rows[i].fileId != fileId
    ensures Holding(rows, ids + {fileId}) == Holding(rows, ids)
  {
    if rows == [] {
    } else {
      HoldingMore(rows[..|rows| - 1], ids, fileId);
    }
  }

  lemma ForgetFades(rows: seq<Row>, fileId: string)
    ensures Faded(rows, Forget(rows, fileId))
  {
  }

  lemma FadedTwice(a: seq<Row>, b: seq<Row>, c: seq<Row>)
    requires Faded(a, b) && Faded(b, c)
    ensures Faded(a, c)
  {
    forall i | 0 <= i < |a| ensures c[i] == a[i] || c[i] == a[i].(live := false) {
      assert b[i] == a[i] || b[i] == a[i].(live := false);
      assert c[i] == b[i] || c[i] == b[i].(live := false);
    }
  }

  // ---- ordered queries ----

  predicate Asked(x: Row, cutoff: Option<int>) {
    x.live && (cutoff.Some? ==> x.createdAt < cutoff.value)
  }

  predicate InOrder(a: Row, b: Row, newestFirst: bool) {
    if newestFirst then a.createdAt >= b.createdAt else a.createdAt <= b.createdAt
  }

  predicate Sorted(order: seq<Row>, newestFirst: bool) {
    forall i, j :: 0 <= i < j < |order| ==> order[i].id != order[j].id && InOrder(order[i], order[j], newestFirst)
  }

  /** `order` holds every live row created before the cutoff once, sorted by creation time; rows of
      the same time may come in any order. */
  ghost predicate Ordered(rows: seq<Row>, order: seq<Row>, cutoff: Option<int>, newestFirst: bool) {
    && Sorted(order, newestFirst)
    && (forall x :: x in order <==> x in rows && Asked(x, cutoff))
  }

  /** The first `n` rows of an ordered answer. */
  function Window(order: seq<Row>, n: nat): seq<Row> {
    if |order| <= n then order else order[..n]
  }

  /** The rows a query asks for, in the order of their keys. */
  function Wanted(rows: seq<Row>, cutoff: Option<int>): seq<Row> {
    if rows == [] then []
    else Wanted(rows[..|rows| - 1], cutoff) + if Asked(rows[|rows| - 1], cutoff) then [rows[|rows| - 1]] else []
  }

  function ByTime(newestFirst: bool): (Row, Row) -> bool {
    (a: Row, b: Row) => InOrder(a, b, newestFirst)
  }

  function Answer(rows: seq<Row>, cutoff: Option<int>, newestFirst: bool): seq<Row> {
    Sorting.Sort(Wanted(rows, cutoff), ByTime(newestFirst))
  }

  lemma {:induction false} WantedRows(rows: seq<Row>, cutoff: Option<int>)
    requires Numbered(rows)
    ensures forall x :: x in Wanted(rows, cutoff) <==> x in rows && Asked(x, cutoff)
    ensures forall i, j :: 0 <= i < j < |Wanted(rows, cutoff)| ==> Wanted(rows, cutoff)[i].id != Wanted(rows, cutoff)[j].id
  {
    if rows == [] {
    } else {
      var n := |rows| - 1;
      WantedRows(rows[..n], cutoff);
      assert rows == rows[..n] + [rows[n]];
      var w := Wanted(rows[..n], cutoff);
      forall i | 0 <= i < |w| ensures w[i].id != rows[n].id { assert w[i] in rows[..n]; }
    }
  }

  lemma AnswerOrdered(rows: seq<Row>, cutoff: Option<int>, newestFirst: bool)
    requires Numbered(rows)
    ensures Ordered(rows, Answer(rows, cutoff, newestFirst), cutoff, newestFirst)
  {
    var wanted, order, le := Wanted(rows, cutoff), Answer(rows, cutoff, newestFirst), ByTime(newestFirst);
    WantedRows(rows, cutoff);
    Sorting.SortSorts(wanted, le);
    Bags.KeysStayApart(wanted, order, (x: Row) => x.id);
    forall x ensures x in order <==> x in wanted { assert x in multiset(order) <==> x in multiset(wanted); }
    forall i, j | 0 <= i < j < |order| ensures InOrder(order[i], order[j], newestFirst) { assert le(order[i], order[j]); }
  }
}
