/** Paging over several nodes. */
module Paging {
  import opened Bags
  import opened Messages
  import opened Pages
  import opened Merging

  // Each node pages its own rows, and the pages of the same number are merged.

  function Offset(size: int, page: int): int {
    (page - 1) * size
  }

  function Cut(rows: seq<Entry>, n: int): nat {
    if n < 0 then 0 else if n < |rows| then n else |rows|
  }

  /** Data.FindLogs on the rows that match the query, newest first. */
  function FindLogs(rows: seq<Entry>, size: int, page: int): Option<PageData> {
    if size <= 0 || page <= 0 then None
    else
      var offset := Offset(size, page);
      assert offset >= 0 && Cut(rows, offset) <= Cut(rows, offset + size);
      Some(PageData(|rows|, rows[Cut(rows, offset)..Cut(rows, offset + size)]))
  }

  /** The answers of all nodes for one page number. */
  function NodePages(lists: seq<seq<Entry>>, size: nat, page: nat): seq<PageData>
    requires size > 0 && page > 0
  {
    seq(|lists|, i requires 0 <= i < |lists| => FindLogs(lists[i], size, page).value)
  }

  /** The first `n` rows of every node. */
  function Heads(lists: seq<seq<Entry>>, n: nat): seq<PageData> {
    seq(|lists|, i requires 0 <= i < |lists| => PageData(|lists[i]|, lists[i][..Cut(lists[i], n)]))
  }

  /** Everything the merged pages 1 to `pages` show. */
  function Shown(lists: seq<seq<Entry>>, size: nat, pages: nat): multiset<Entry>
    requires size > 0
  {
    if pages == 0 then multiset{} else Shown(lists, size, pages - 1) + multiset(Concat(NodePages(lists, size, pages)))
  }

  function Rows(lists: seq<seq<Entry>>): nat {
    if lists == [] then 0 else Rows(lists[..|lists| - 1]) + |lists[|lists| - 1]|
  }

  lemma OffsetGrows(size: nat, page: nat)
    requires size > 0 && page > 0
    ensures Offset(size, page) == (page - 1) * size >= 0 && Offset(size, page) + size == page * size
  {
  }

  /** The row at place `k` of its node is on exactly one page, number k / size + 1, at place k % size. */
  lemma OnePage(rows: seq<Entry>, size: nat, page: nat, k: nat)
    requires size > 0 && page > 0 && k < |rows|
    ensures Offset(size, page) <= k < Offset(size, page) + size <==> page == k / size + 1
    ensures page == k / size + 1 ==>
              var data := FindLogs(rows, size, page).value.data; k % size < |data| && data[k % size] == rows[k]
  {
    var q, r := k / size, k % size;
    assert k == q * size + r;
    OffsetGrows(size, page);
    if page <= q {
      assert page * size <= q * size;
    } else if page > q + 1 {
      assert (q + 1) * size <= (page - 1) * size;
      assert (q + 1) * size == q * size + size;
    }
  }

  // ---- nothing is lost or shown twice ----

  /** The rows of every node from place `a` up to place `b`. */
  function Slices(lists: seq<seq<Entry>>, a: nat, b: nat): seq<PageData>
    requires a <= b
  {
    seq(|lists|, i requires 0 <= i < |lists| => PageData(|lists[i]|, lists[i][Cut(lists[i], a)..Cut(lists[i], b)]))
  }

  lemma CutAdds(rows: seq<Entry>, a: nat, b: nat)
    requires a <= b
    ensures rows[..Cut(rows, b)] == rows[..Cut(rows, a)] + rows[Cut(rows, a)..Cut(rows, b)]
  {
  }

  lemma LastSlice(lists: seq<seq<Entry>>, a: nat, b: nat)
    requires a <= b && lists != []
    ensures var n := |lists| - 1;
            && Concat(Heads(lists, a)) == Concat(Heads(lists[..n], a)) + lists[n][..Cut(lists[n], a)]
            && Concat(Heads(lists, b)) == Concat(Heads(lists[..n], b)) + lists[n][..Cut(lists[n], b)]
            && Concat(Slices(lists, a, b)) == Concat(Slices(lists[..n], a, b)) + lists[n][Cut(lists[n], a)..Cut(lists[n], b)]
  {
    var n := |lists| - 1;
    assert Heads(lists, b)[..n] == Heads(lists[..n], b);
    assert Heads(lists, a)[..n] == Heads(lists[..n], a);
    assert Slices(lists, a, b)[..n] == Slices(lists[..n], a, b);
  }

  lemma {:induction false} SliceAdds(lists: seq<seq<Entry>>, a: nat, b: nat)
    requires a <= b
    ensures multiset(Concat(Heads(lists, b))) == multiset(Concat(Heads(lists, a))) + multiset(Concat(Slices(lists, a, b)))
  {
    if lists == [] {
    } else {
      hide Concat, Heads, Slices;
      var n := |lists| - 1;
      SliceAdds(lists[..n], a, b);
      LastSlice(lists, a, b);
      CutAdds(lists[n], a, b);
    }
  }

  lemma PageAdds(lists: seq<seq<Entry>>, size: nat, page: nat)
    requires size > 0 && page > 0 && Offset(size, page) >= 0
    ensures multiset(Concat(Heads(lists, Offset(size, page) + size)))
         == multiset(Concat(Heads(lists, Offset(size, page)))) + multiset(Concat(NodePages(lists, size, page)))
  {
    hide Offset, Concat, Heads, Slices, NodePages;
    NodeSlices(lists, size, page);
    SliceAdds(lists, Offset(size, page), Offset(size, page) + size);
  }

  lemma NodeSlices(lists: seq<seq<Entry>>, size: nat, page: nat)
    requires size > 0 && page > 0 && Offset(size, page) >= 0
    ensures NodePages(lists, size, page) == Slices(lists, Offset(size, page), Offset(size, page) + size)
  {
    hide Offset;
  }

  lemma {:induction false} NoHeads(lists: seq<seq<Entry>>)
    ensures Concat(Heads(lists, 0)) == []
  {
    if lists == [] {
    } else {
      NoHeads(lists[..|lists| - 1]);
      assert Heads(lists, 0)[..|lists| - 1] == Heads(lists[..|lists| - 1], 0);
    }
  }

  /** While nothing is rearranged, pages 1 to p together show the first p * size rows of every node, each as often as it occurs. */
  lemma {:induction false} ShownHeads(lists: seq<seq<Entry>>, size: nat, pages: nat)
    requires size > 0
    ensures pages * size >= 0 && Shown(lists, size, pages) == multiset(Concat(Heads(lists, pages * size)))
    decreases pages
  {
    hide Offset, Concat, Heads, NodePages;
    if pages == 0 {
      NoHeads(lists);
    } else {
      OffsetGrows(size, pages);
      ShownHeads(lists, size, pages - 1);
      PageAdds(lists, size, pages);
    }
  }

  /** The total of any page is the number of rows on all nodes. */
  lemma {:induction false} TotalIsSum(lists: seq<seq<Entry>>, size: nat, page: nat)
    requires size > 0 && page > 0
    ensures TotalOf(NodePages(lists, size, page)) == Rows(lists)
  {
    if lists == [] {
    } else {
      var n := |lists| - 1;
      TotalIsSum(lists[..n], size, page);
      assert NodePages(lists, size, page)[..n] == NodePages(lists[..n], size, page);
    }
  }

  // ---- the newest rows come first ----

  /** How many entries are at least as new as `t`. */
  function Newer(xs: seq<Entry>, t: int): nat {
    if xs == [] then 0 else Newer(xs[..|xs| - 1], t) + if xs[|xs| - 1].second >= t then 1 else 0
  }

  lemma {:induction false} NewerBound(xs: seq<Entry>, t: int)
    ensures Newer(xs, t) <= |xs|
  {
    if xs == [] {
    } else {
      NewerBound(xs[..|xs| - 1], t);
    }
  }

  lemma {:induction false} NewerConcat(xs: seq<Entry>, ys: seq<Entry>, t: int)
    ensures Newer(xs + ys, t) == Newer(xs, t) + Newer(ys, t)
  {
    if ys == [] {
      assert xs + ys == xs;
    } else {
      var n := |ys| - 1;
      NewerConcat(xs, ys[..n], t);
      assert (xs + ys)[..|xs| + n] == xs + ys[..n];
    }
  }

  lemma NewerDropped(xs: seq<Entry>, k: nat, t: int)
    requires k < |xs|
    ensures Newer(xs, t) == Newer(Dropped(xs, k), t) + Newer([xs[k]], t)
  {
    hide Newer;
    assert xs == xs[..k] + [xs[k]] + xs[k + 1..];
    NewerConcat(xs[..k], [xs[k]], t);
    NewerConcat(xs[..k] + [xs[k]], xs[k + 1..], t);
    NewerConcat(xs[..k], xs[k + 1..], t);
  }

  lemma BagDropped(xs: seq<Entry>, k: nat)
    requires k < |xs|
    ensures multiset(xs) == multiset(Dropped(xs, k)) + multiset{xs[k]}
  {
    assert xs == xs[..k] + [xs[k]] + xs[k + 1..];
  }

  lemma {:induction false} NewerSame(xs: seq<Entry>, ys: seq<Entry>, t: int)
    requires multiset(xs) == multiset(ys)
    ensures Newer(xs, t) == Newer(ys, t)
    decreases |xs|
  {
    assert |xs| == |multiset(xs)| == |multiset(ys)| == |ys|;
    if xs == [] {
    } else {
      hide Newer;
      assert xs[0] in multiset(ys);
      var k :| 0 <= k < |ys| && ys[k] == xs[0];
      BagDropped(xs, 0);
      BagDropped(ys, k);
      BagCancel(multiset(Dropped(xs, 0)), multiset(Dropped(ys, k)), xs[0]);
      NewerSame(Dropped(xs, 0), Dropped(ys, k), t);
      NewerDropped(xs, 0, t);
      NewerDropped(ys, k, t);
    }
  }

  /** In a list that is newest first, more than `j` entries are at least as new as `t` exactly when
      entry `j` is. */
  lemma {:induction false} Rank(xs: seq<Entry>, j: nat, t: int)
    requires Descending(xs)
    ensures Newer(xs, t) > j <==> j < |xs| && xs[j].second >= t
    decreases |xs|
  {
    if xs == [] {
    } else {
      var n := |xs| - 1;
      Rank(xs[..n], j, t);
      NewerBound(xs[..n], t);
      if xs[n].second >= t {
        AllNewer(xs[..n], t);
      }
    }
  }

  lemma {:induction false} AllNewer(xs: seq<Entry>, t: int)
    requires forall i :: 0 <= i < |xs| ==> xs[i].second >= t
    ensures Newer(xs, t) == |xs|
  {
    if xs == [] {
    } else {
      AllNewer(xs[..|xs| - 1], t);
    }
  }

  /** What the first `n` rows of every node leave out. */
  function Tails(lists: seq<seq<Entry>>, n: nat): seq<PageData> {
    seq(|lists|, i requires 0 <= i < |lists| => PageData(|lists[i]|, lists[i][Cut(lists[i], n)..]))
  }

  function Whole(lists: seq<seq<Entry>>): seq<PageData> {
    seq(|lists|, i requires 0 <= i < |lists| => PageData(|lists[i]|, lists[i]))
  }

  /** Counting node by node. */
  lemma LastNode(lists: seq<seq<Entry>>, n: nat, t: int)
    requires lists != []
    ensures var k := |lists| - 1;
            var init, rows, c := lists[..k], lists[k], Cut(lists[k], n);
            && Newer(Concat(Heads(lists, n)), t) == Newer(Concat(Heads(init, n)), t) + Newer(rows[..c], t)
            && Newer(Concat(Tails(lists, n)), t) == Newer(Concat(Tails(init, n)), t) + Newer(rows[c..], t)
            && Newer(Concat(Whole(lists)), t) == Newer(Concat(Whole(init)), t) + Newer(rows, t)
  {
    hide Newer;
    var k := |lists| - 1;
    var init, rows, c := lists[..k], lists[k], Cut(lists[k], n);
    assert Heads(lists, n)[..k] == Heads(init, n);
    assert Tails(lists, n)[..k] == Tails(init, n);
    assert Whole(lists)[..k] == Whole(init);
    NewerConcat(Concat(Heads(init, n)), rows[..c], t);
    NewerConcat(Concat(Tails(init, n)), rows[c..], t);
    NewerConcat(Concat(Whole(init)), rows, t);
  }

  lemma {:induction false} HeadsAndTails(lists: seq<seq<Entry>>, n: nat, t: int)
    ensures Newer(Concat(Heads(lists, n)), t) + Newer(Concat(Tails(lists, n)), t) == Newer(Concat(Whole(lists)), t)
  {
    if lists == [] {
    } else {
      hide Newer, Concat, Heads, Tails, Whole;
      var k := |lists| - 1;
      var rows, c := lists[k], Cut(lists[k], n);
      HeadsAndTails(lists[..k], n, t);
      LastNode(lists, n, t);
      NewerConcat(rows[..c], rows[c..], t);
      assert rows == rows[..c] + rows[c..];
    }
  }

  lemma OwnTail(rows: seq<Entry>, n: nat, t: int)
    requires Descending(rows) && Newer(rows[Cut(rows, n)..], t) > 0
    ensures Newer(rows[..Cut(rows, n)], t) >= n
  {
    var c := Cut(rows, n);
    Rank(rows[c..], 0, t);
    assert rows[c..][0] == rows[c];
    AllNewer(rows[..c], t);
  }

  /** A row past the first `n` of its node has at least `n` rows at least as new among the heads. */
  lemma {:induction false} TailBehindHeads(lists: seq<seq<Entry>>, n: nat, t: int)
    requires forall i :: 0 <= i < |lists| ==> Descending(lists[i])
    requires Newer(Concat(Tails(lists, n)), t) > 0
    ensures Newer(Concat(Heads(lists, n)), t) >= n
  {
    assert lists != [];
    hide Newer, Concat, Heads, Tails, Whole, Descending, Cut;
    var k := |lists| - 1;
    LastNode(lists, n, t);
    if Newer(lists[k][Cut(lists[k], n)..], t) > 0 {
      OwnTail(lists[k], n, t);
    } else {
      TailBehindHeads(lists[..k], n, t);
    }
  }

  /** While nothing is rearranged and p * size covers the longest node, pages 1 to p show every row of the cluster once. */
  lemma EveryRowOnce(lists: seq<seq<Entry>>, size: nat, pages: nat)
    requires size > 0 && forall i :: 0 <= i < |lists| ==> |lists[i]| <= pages * size
    ensures Shown(lists, size, pages) == multiset(Concat(Whole(lists)))
  {
    ShownHeads(lists, size, pages);
    WholeHeads(lists, pages * size);
  }

  lemma WholeHeads(lists: seq<seq<Entry>>, n: nat)
    requires forall i :: 0 <= i < |lists| ==> |lists[i]| <= n
    ensures Heads(lists, n) == Whole(lists)
  {
    forall i | 0 <= i < |lists| ensures Heads(lists, n)[i] == Whole(lists)[i] {
      assert lists[i][..Cut(lists[i], n)] == lists[i];
    }
  }
}
