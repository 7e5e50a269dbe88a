/** Paging when rows of one time come in another order each time a page is asked for. */
module Ties {
  import opened Bags
  import opened Pages
  import opened Merging
  import opened Paging
  import opened Sorting

  /** A node's answer is ordered by creation time, newest first. */
  predicate ByAge(xs: seq<Entry>) {
    forall i, j :: 0 <= i < j < |xs| ==> xs[i].at >= xs[j].at
  }

  // Every page is a query of its own, ordered by creation time alone; `lists[i]` is one order of node i's rows, and
  // `views[q][i]` the order in which node i had them when it answered for page q + 1.

  ghost predicate Views(lists: seq<seq<Entry>>, views: seq<seq<seq<Entry>>>) {
    forall q :: 0 <= q < |views| ==> View(lists, views[q])
  }

  ghost predicate View(lists: seq<seq<Entry>>, view: seq<seq<Entry>>) {
    |view| == |lists| && forall i :: 0 <= i < |lists| ==> ByAge(view[i]) && multiset(view[i]) == multiset(lists[i])
  }

  ghost predicate AllByAge(lists: seq<seq<Entry>>) {
    forall i :: 0 <= i < |lists| ==> ByAge(lists[i])
  }

  /** What the merged pages show, page after page. */
  function ShownRows(views: seq<seq<seq<Entry>>>, size: nat): seq<Entry>
    requires size > 0
  {
    if views == [] then []
    else ShownRows(views[..|views| - 1], size) + Concat(NodePages(views[|views| - 1], size, |views|))
  }

  /** No run of rows of one time goes on past place `k`, or its rows are all the same. */
  predicate Uncut(rows: seq<Entry>, k: nat) {
    0 < k < |rows| && rows[k - 1].at == rows[k].at ==>
      forall x, y :: x in rows && y in rows && x.at == rows[k].at && y.at == rows[k].at ==> x == y
  }

  predicate PageUncut(rows: seq<Entry>, size: nat, page: nat)
    requires size > 0
  {
    page * size >= 0 && Uncut(rows, page * size)
  }

  /** No boundary after pages 1 to `pages` cuts through a tie on any node. */
  predicate NoTieCut(lists: seq<seq<Entry>>, size: nat, pages: nat)
    requires size > 0
  {
    forall i, q :: 0 <= i < |lists| && 1 <= q <= pages ==> PageUncut(lists[i], size, q)
  }

  // ---- two orders of the same rows ----

  function Times(xs: seq<Entry>): seq<int> {
    seq(|xs|, i requires 0 <= i < |xs| => xs[i].at)
  }

  lemma TimesDropped(xs: seq<Entry>, k: nat)
    requires k < |xs|
    ensures multiset(Times(xs)) == multiset(Times(Dropped(xs, k))) + multiset{xs[k].at}
  {
    var s := Times(xs);
    assert s == s[..k] + [s[k]] + s[k + 1..];
    assert Times(Dropped(xs, k)) == s[..k] + s[k + 1..];
  }

  lemma {:induction false} TimesBag(xs: seq<Entry>, ys: seq<Entry>)
    requires multiset(xs) == multiset(ys)
    ensures multiset(Times(xs)) == multiset(Times(ys))
    decreases |xs|
  {
    assert |xs| == |multiset(xs)| == |multiset(ys)| == |ys|;
    if xs == [] {
    } else {
      hide Times;
      assert xs[0] in multiset(ys);
      var k :| 0 <= k < |ys| && ys[k] == xs[0];
      BagDropped(xs, 0);
      BagDropped(ys, k);
      BagCancel(multiset(Dropped(xs, 0)), multiset(Dropped(ys, k)), xs[0]);
      TimesBag(Dropped(xs, 0), Dropped(ys, k));
      TimesDropped(xs, 0);
      TimesDropped(ys, k);
    }
  }

  /** Two orders of the same rows have the same times in the same places. */
  lemma TimesAgree(a: seq<Entry>, b: seq<Entry>)
    requires ByAge(a) && ByAge(b) && multiset(a) == multiset(b)
    ensures |a| == |b| && forall j :: 0 <= j < |a| ==> a[j].at == b[j].at
  {
    var falls := (x: int, y: int) => x >= y;
    TimesBag(a, b);
    assert Sorted(Times(a), falls) && Sorted(Times(b), falls);
    OneResult(Times(a), Times(b), falls);
    assert |a| == |Times(a)| == |Times(b)| == |b|;
    assert forall j :: 0 <= j < |a| ==> a[j].at == Times(a)[j] == Times(b)[j] == b[j].at;
  }

  /** An entry newer than row `k` is before it as often as at all; one older than row `k - 1` never. */
  lemma BeforeCount(a: seq<Entry>, k: nat, e: Entry)
    requires ByAge(a) && 0 < k < |a|
    ensures e.at > a[k].at ==> multiset(a[..k])[e] == multiset(a)[e]
    ensures e.at < a[k - 1].at ==> multiset(a[..k])[e] == 0
  {
    assert a == a[..k] + a[k..];
    assert forall x :: x in a[k..] ==> x.at <= a[k].at;
    assert forall x :: x in a[..k] ==> x.at >= a[k - 1].at;
  }

  lemma AllButOne(a: multiset<Entry>, b: multiset<Entry>, z: Entry)
    requires |a| == |b| && forall e :: e != z ==> a[e] == b[e]
    ensures a == b
  {
    assert a[z := 0] == b[z := 0];
    assert |a| == |a[z := 0]| + a[z] && |b| == |b[z := 0]| + b[z];
  }

  lemma PrefixSame(a: seq<Entry>, b: seq<Entry>, k: nat)
    requires ByAge(a) && ByAge(b) && multiset(a) == multiset(b) && Uncut(a, k)
    ensures multiset(a[..Cut(a, k)]) == multiset(b[..Cut(b, k)])
  {
    TimesAgree(a, b);
    if 0 < k < |a| {
      var z := a[k];
      forall e | e != z ensures multiset(a[..k])[e] == multiset(b[..k])[e] {
        BeforeCount(a, k, e);
        BeforeCount(b, k, e);
        if e.at == z.at && a[k - 1].at == z.at {
          assert e !in a;
          assert e !in multiset(a) && e !in multiset(b);
          assert e !in b;
        }
      }
      if a[k - 1].at > z.at { BeforeCount(a, k, z); BeforeCount(b, k, z); }
      assert |multiset(a[..k])| == k == |multiset(b[..k])|;
      AllButOne(multiset(a[..k]), multiset(b[..k]), z);
    } else if k >= |a| {
      assert a[..Cut(a, k)] == a && b[..Cut(b, k)] == b;
    }
  }

  lemma SliceSame(a: seq<Entry>, b: seq<Entry>, j: nat, k: nat)
    requires ByAge(a) && ByAge(b) && multiset(a) == multiset(b) && j <= k && Uncut(a, j) && Uncut(a, k)
    ensures multiset(a[Cut(a, j)..Cut(a, k)]) == multiset(b[Cut(b, j)..Cut(b, k)])
  {
    PrefixSame(a, b, j);
    PrefixSame(a, b, k);
    CutAdds(a, j, k);
    CutAdds(b, j, k);
    hide Uncut, ByAge, Cut;
    var pa, pb, sa, sb := a[..Cut(a, j)], b[..Cut(b, j)], a[Cut(a, j)..Cut(a, k)], b[Cut(b, j)..Cut(b, k)];
    assert multiset(pa + sa) == multiset(sa) + multiset(pa) && multiset(pb + sb) == multiset(sb) + multiset(pb);
    BagsCancel(multiset(sa), multiset(sb), multiset(pa));
  }

  // ---- merged pages ----

  lemma {:induction false} ConcatSame(ps: seq<PageData>, qs: seq<PageData>)
    requires |ps| == |qs| && forall i :: 0 <= i < |ps| ==> multiset(ps[i].data) == multiset(qs[i].data)
    ensures multiset(Concat(ps)) == multiset(Concat(qs))
  {
    if ps == [] {
    } else {
      var n := |ps| - 1;
      assert multiset(ps[n].data) == multiset(qs[n].data);
      ConcatSame(ps[..n], qs[..n]);
    }
  }

  /** A page whose boundaries cut no tie shows the same rows in whatever order the nodes have them. */
  lemma PageSame(lists: seq<seq<Entry>>, view: seq<seq<Entry>>, size: nat, page: nat)
    requires size > 0 && page > 0 && AllByAge(lists) && View(lists, view) && NoTieCut(lists, size, page)
    ensures multiset(Concat(NodePages(view, size, page))) == multiset(Concat(NodePages(lists, size, page)))
  {
    OffsetGrows(size, page);
    NodeSlices(lists, size, page);
    NodeSlices(view, size, page);
    forall i | 0 <= i < |lists|
      ensures multiset(NodePages(view, size, page)[i].data) == multiset(NodePages(lists, size, page)[i].data)
    {
      assert PageUncut(lists[i], size, page);
      if page > 1 { assert PageUncut(lists[i], size, page - 1); }
      SliceSame(lists[i], view[i], Offset(size, page), Offset(size, page) + size);
    }
    ConcatSame(NodePages(view, size, page), NodePages(lists, size, page));
  }

  lemma {:induction false} ShownSame(lists: seq<seq<Entry>>, views: seq<seq<seq<Entry>>>, size: nat)
    requires size > 0 && AllByAge(lists) && Views(lists, views) && NoTieCut(lists, size, |views|)
    ensures multiset(ShownRows(views, size)) == Shown(lists, size, |views|)
    decreases |views|
  {
    if views == [] {
    } else {
      hide NodePages, Concat, View, PageUncut;
      var n := |views| - 1;
      assert forall q :: 0 <= q < n ==> views[..n][q] == views[q];
      ShownSame(lists, views[..n], size);
      PageSame(lists, views[n], size, n + 1);
    }
  }

  /** Pages 1 to p show the first p * size rows of every node, each as often as it occurs, when no
      boundary cuts a tie. */
  lemma ShownFirst(lists: seq<seq<Entry>>, views: seq<seq<seq<Entry>>>, size: nat)
    requires size > 0 && AllByAge(lists) && Views(lists, views) && NoTieCut(lists, size, |views|)
    ensures |views| * size >= 0 && multiset(ShownRows(views, size)) == multiset(Concat(Heads(lists, |views| * size)))
  {
    ShownSame(lists, views, size);
    ShownHeads(lists, size, |views|);
  }

  // ---- a cut tie loses rows ----

  function Swapped(rows: seq<Entry>, a: nat, b: nat): seq<Entry>
    requires a < b < |rows|
  {
    rows[a := rows[b]][b := rows[a]]
  }

  lemma SwappedBag(rows: seq<Entry>, a: nat, b: nat)
    requires a < b < |rows|
    ensures multiset(Swapped(rows, a, b)) == multiset(rows)
  {
    var s := Swapped(rows, a, b);
    assert rows == rows[..a] + [rows[a]] + rows[a + 1..b] + [rows[b]] + rows[b + 1..];
    assert s == rows[..a] + [rows[b]] + rows[a + 1..b] + [rows[a]] + rows[b + 1..];
  }

  /** A cut tie has two different rows on the two sides of the boundary. */
  lemma AcrossCut(rows: seq<Entry>, k: nat) returns (a: nat, b: nat)
    requires ByAge(rows) && !Uncut(rows, k)
    ensures a < k <= b < |rows| && rows[a].at == rows[b].at && rows[a] != rows[b]
  {
    var x, y :| x in rows && y in rows && x.at == rows[k].at && y.at == rows[k].at && x != y;
    var z := if x != rows[k] then x else y;
    var m :| 0 <= m < |rows| && rows[m] == z;
    if m < k {
      a, b := m, k;
    } else if rows[k - 1] != rows[k] {
      a, b := k - 1, k;
    } else {
      a, b := k - 1, m;
    }
  }

  lemma {:induction false} ConcatUpdate(ps: seq<PageData>, i: nat, p: PageData)
    requires i < |ps|
    ensures multiset(Concat(ps[i := p])) + multiset(ps[i].data) == multiset(Concat(ps)) + multiset(p.data)
  {
    var n := |ps| - 1;
    if i == n {
      assert ps[i := p][..n] == ps[..n];
    } else {
      assert ps[i := p][..n] == ps[..n][i := p] && ps[i := p][n] == ps[n];
      ConcatUpdate(ps[..n], i, p);
      BagsExtend(multiset(Concat(ps[..n][i := p])), multiset(ps[i].data), multiset(Concat(ps[..n])), multiset(p.data), multiset(ps[n].data));
    }
  }

  lemma {:induction false} ShownUpdate(views: seq<seq<seq<Entry>>>, size: nat, q: nat, w: seq<seq<Entry>>)
    requires size > 0 && q < |views|
    ensures multiset(ShownRows(views[q := w], size)) + multiset(Concat(NodePages(views[q], size, q + 1)))
         == multiset(ShownRows(views, size)) + multiset(Concat(NodePages(w, size, q + 1)))
    decreases |views|
  {
    hide NodePages, Concat;
    var n := |views| - 1;
    var last := multiset(Concat(NodePages(views[n], size, n + 1)));
    if q == n {
      assert views[q := w][..n] == views[..n];
    } else {
      assert views[q := w][..n] == views[..n][q := w] && views[q := w][n] == views[n];
      ShownUpdate(views[..n], size, q, w);
      BagsExtend(multiset(ShownRows(views[..n][q := w], size)), multiset(Concat(NodePages(views[q], size, q + 1))),
                 multiset(ShownRows(views[..n], size)), multiset(Concat(NodePages(w, size, q + 1))), last);
    }
  }

  /** Swapping two different rows across the end of a page changes what the page shows. */
  lemma SwapShows(rows: seq<Entry>, lo: nat, hi: nat, a: nat, b: nat)
    requires lo <= a < hi <= b < |rows| && rows[a] != rows[b]
    ensures multiset(Swapped(rows, a, b)[lo..hi]) != multiset(rows[lo..hi])
  {
    var s := Swapped(rows, a, b);
    assert s[lo..hi] == rows[lo..a] + [rows[b]] + rows[a + 1..hi];
    assert rows[lo..hi] == rows[lo..a] + [rows[a]] + rows[a + 1..hi];
    var rest := multiset(rows[lo..a]) + multiset(rows[a + 1..hi]);
    assert multiset(s[lo..hi]) == rest + multiset{rows[b]} && multiset(rows[lo..hi]) == rest + multiset{rows[a]};
    assert multiset(s[lo..hi])[rows[a]] == rest[rows[a]];
  }

  /** Every page in one order. */
  function Still(lists: seq<seq<Entry>>, pages: nat): (views: seq<seq<seq<Entry>>>)
    ensures |views| == pages && forall q :: 0 <= q < pages ==> views[q] == lists
  {
    seq(pages, _ => lists)
  }

  lemma StillViews(lists: seq<seq<Entry>>, pages: nat)
    requires AllByAge(lists)
    ensures Views(lists, Still(lists, pages))
  {
  }

  lemma {:induction false} StillShown(lists: seq<seq<Entry>>, size: nat, pages: nat)
    requires size > 0
    ensures multiset(ShownRows(Still(lists, pages), size)) == Shown(lists, size, pages)
    decreases pages
  {
    if pages == 0 {
    } else {
      hide NodePages, Concat;
      assert Still(lists, pages)[..pages - 1] == Still(lists, pages - 1);
      StillShown(lists, size, pages - 1);
    }
  }

  /** Pages in one order but for one page, for which node `i` had rows `a` and `b` the other way round. */
  function Shaken(lists: seq<seq<Entry>>, pages: nat, q: nat, i: nat, a: nat, b: nat): seq<seq<seq<Entry>>>
    requires q < pages && i < |lists| && a < b < |lists[i]|
  {
    Still(lists, pages)[q := lists[i := Swapped(lists[i], a, b)]]
  }

  lemma ShakenViews(lists: seq<seq<Entry>>, pages: nat, q: nat, i: nat, a: nat, b: nat)
    requires AllByAge(lists) && q < pages && i < |lists| && a < b < |lists[i]| && lists[i][a].at == lists[i][b].at
    ensures Views(lists, Shaken(lists, pages, q, i, a, b))
  {
    SwappedBag(lists[i], a, b);
    assert ByAge(lists[i]);
    assert ByAge(Swapped(lists[i], a, b));
    StillViews(lists, pages);
    assert View(lists, lists[i := Swapped(lists[i], a, b)]);
  }

  lemma ShakenNodes(lists: seq<seq<Entry>>, size: nat, page: nat, i: nat, w: seq<Entry>)
    requires size > 0 && page > 0 && i < |lists|
    ensures Offset(size, page) >= 0
    ensures NodePages(lists[i := w], size, page)
         == NodePages(lists, size, page)[i := PageData(|w|, w[Cut(w, Offset(size, page))..Cut(w, Offset(size, page) + size)])]
  {
    OffsetGrows(size, page);
    NodeSlices(lists, size, page);
    NodeSlices(lists[i := w], size, page);
  }

  /** The one page that differs, and where. */
  lemma ShakenPage(lists: seq<seq<Entry>>, size: nat, q: nat, i: nat, a: nat, b: nat) returns (p: PageData)
    requires size > 0 && i < |lists| && a < b < |lists[i]| && lists[i][a] != lists[i][b]
    requires q * size <= a < (q + 1) * size <= b
    ensures |NodePages(lists, size, q + 1)| == |lists|
    ensures NodePages(lists[i := Swapped(lists[i], a, b)], size, q + 1) == NodePages(lists, size, q + 1)[i := p]
    ensures multiset(p.data) != multiset(NodePages(lists, size, q + 1)[i].data)
  {
    OffsetGrows(size, q + 1);
    ShakenNodes(lists, size, q + 1, i, Swapped(lists[i], a, b));
    NodeSlices(lists, size, q + 1);
    p := NodePages(lists[i := Swapped(lists[i], a, b)], size, q + 1)[i];
    hide Swapped, Offset, NodePages;
    SwapShows(lists[i], q * size, (q + 1) * size, a, b);
  }

  /** Exchanging two different rows across the end of a page changes what all the pages show together. */
  lemma ShakenShows(lists: seq<seq<Entry>>, size: nat, pages: nat, q: nat, i: nat, a: nat, b: nat)
    requires size > 0 && q < pages && i < |lists| && a < b < |lists[i]| && lists[i][a] != lists[i][b]
    requires q * size <= a < (q + 1) * size <= b
    ensures multiset(ShownRows(Shaken(lists, pages, q, i, a, b), size)) != multiset(ShownRows(Still(lists, pages), size))
  {
    var w := lists[i := Swapped(lists[i], a, b)];
    var ps := NodePages(lists, size, q + 1);
    ShownUpdate(Still(lists, pages), size, q, w);
    var p := ShakenPage(lists, size, q, i, a, b);
    hide NodePages, Concat, ShownRows, Swapped;
    ConcatUpdate(ps, i, p);
    BagsDiffer(multiset(ShownRows(Shaken(lists, pages, q, i, a, b), size)), multiset(ShownRows(Still(lists, pages), size)),
               multiset(Concat(ps)), multiset(Concat(ps[i := p])), multiset(ps[i].data), multiset(p.data));
  }

  lemma BagsDiffer(u: multiset<Entry>, v: multiset<Entry>, c: multiset<Entry>, d: multiset<Entry>, x: multiset<Entry>, y: multiset<Entry>)
    requires u + c == v + d && d + x == c + y && x != y
    ensures u != v
  {
    if u == v { BagsAgree(u, c, d, x, y); }
  }

  lemma BagsAgree(u: multiset<Entry>, c: multiset<Entry>, d: multiset<Entry>, x: multiset<Entry>, y: multiset<Entry>)
    requires u + c == u + d && d + x == c + y
    ensures x == y
  {
    assert c == u + c - u && d == u + d - u;
    assert x == c + x - c && y == c + y - c;
  }

  lemma ProductGrows(k: nat, q: nat, size: nat)
    requires k <= q
    ensures k * size <= q * size
  {
  }

  /** Which page place `a` is on, when a later boundary is past it. */
  lemma PageOf(size: nat, a: nat, k: nat) returns (q: nat)
    requires size > 0 && a < k * size
    ensures q * size <= a < (q + 1) * size <= k * size && q < k
  {
    q := a / size;
    assert a == q * size + a % size;
    if q >= k { ProductGrows(k, q, size); }
    assert (q + 1) * size == q * size + size;
    ProductGrows(q + 1, k, size);
  }

  /** Every page is a query that may have ties in another order: pages enough for the longest node show
      every row of the cluster once, however ties come, exactly when no boundary between two pages cuts a
      tie on any node. */
  lemma EveryRowOnceIff(lists: seq<seq<Entry>>, size: nat, pages: nat)
    requires size > 0 && pages > 0 && AllByAge(lists) && forall i :: 0 <= i < |lists| ==> |lists[i]| <= pages * size
    ensures (forall views :: |views| == pages && Views(lists, views) ==> multiset(ShownRows(views, size)) == multiset(Concat(Whole(lists))))
       <==> NoTieCut(lists, size, pages - 1)
  {
    hide NodePages, Concat, ShownRows, Whole, View;
    EveryRowOnce(lists, size, pages);
    if NoTieCut(lists, size, pages - 1) {
      LastUncut(lists, size, pages);
      forall views | |views| == pages && Views(lists, views) ensures multiset(ShownRows(views, size)) == multiset(Concat(Whole(lists))) {
        ShownSame(lists, views, size);
      }
    } else {
      var views := CutShows(lists, size, pages);
    }
  }

  lemma LastUncut(lists: seq<seq<Entry>>, size: nat, pages: nat)
    requires size > 0 && pages > 0 && NoTieCut(lists, size, pages - 1) && forall i :: 0 <= i < |lists| ==> |lists[i]| <= pages * size
    ensures NoTieCut(lists, size, pages)
  {
  }

  /** A cut tie: some orders of it show other rows. */
  lemma CutShows(lists: seq<seq<Entry>>, size: nat, pages: nat) returns (views: seq<seq<seq<Entry>>>)
    requires size > 0 && pages > 0 && AllByAge(lists) && forall i :: 0 <= i < |lists| ==> |lists[i]| <= pages * size
    requires !NoTieCut(lists, size, pages - 1)
    ensures |views| == pages && Views(lists, views) && multiset(ShownRows(views, size)) != multiset(Concat(Whole(lists)))
  {
    var i, k :| 0 <= i < |lists| && 1 <= k <= pages - 1 && !PageUncut(lists[i], size, k);
    assert ByAge(lists[i]);
    var a, b := AcrossCut(lists[i], k * size);
    var q := PageOf(size, a, k);
    ShakenViews(lists, pages, q, i, a, b);
    ShakenShows(lists, size, pages, q, i, a, b);
    StillShown(lists, size, pages);
    EveryRowOnce(lists, size, pages);
    views := Shaken(lists, pages, q, i, a, b);
  }

  // ---- the times a page shows do not depend on ties ----

  lemma {:induction false} ConcatSeconds(ps: seq<PageData>, qs: seq<PageData>)
    requires |ps| == |qs| && forall i :: 0 <= i < |ps| ==> Seconds(ps[i].data) == Seconds(qs[i].data)
    ensures Seconds(Concat(ps)) == Seconds(Concat(qs))
  {
    if ps == [] {
    } else {
      var n := |ps| - 1;
      ConcatSeconds(ps[..n], qs[..n]);
      assert Seconds(ps[n].data) == Seconds(qs[n].data);
      SecondsConcat(Concat(ps[..n]), ps[n].data);
      SecondsConcat(Concat(qs[..n]), qs[n].data);
    }
  }

  lemma SecondsConcat(xs: seq<Entry>, ys: seq<Entry>)
    ensures Seconds(xs + ys) == Seconds(xs) + Seconds(ys)
  {
  }

  lemma ViewSeconds(lists: seq<seq<Entry>>, view: seq<seq<Entry>>, size: nat, page: nat)
    requires size > 0 && page > 0 && AllByAge(lists) && View(lists, view)
    ensures Seconds(Concat(NodePages(view, size, page))) == Seconds(Concat(NodePages(lists, size, page)))
  {
    OffsetGrows(size, page);
    NodeSlices(lists, size, page);
    NodeSlices(view, size, page);
    forall i | 0 <= i < |lists|
      ensures Seconds(NodePages(view, size, page)[i].data) == Seconds(NodePages(lists, size, page)[i].data)
    {
      TimesAgree(lists[i], view[i]);
    }
    ConcatSeconds(NodePages(view, size, page), NodePages(lists, size, page));
  }

  lemma {:induction false} ShownSeconds(lists: seq<seq<Entry>>, views: seq<seq<seq<Entry>>>, size: nat)
    requires size > 0 && AllByAge(lists) && Views(lists, views)
    ensures Seconds(ShownRows(views, size)) == Seconds(ShownRows(Still(lists, |views|), size))
    decreases |views|
  {
    var n := |views| - 1;
    var still := Still(lists, |views|);
    if views == [] {
    } else {
      hide NodePages, Concat, View, Seconds;
      assert still[..n] == Still(lists, n) && still[n] == lists;
      assert forall q :: 0 <= q < n ==> views[..n][q] == views[q];
      ShownSeconds(lists, views[..n], size);
      ViewSeconds(lists, views[n], size, n + 1);
      SecondsConcat(ShownRows(views[..n], size), Concat(NodePages(views[n], size, n + 1)));
      SecondsConcat(ShownRows(Still(lists, n), size), Concat(NodePages(lists, size, n + 1)));
    }
  }

  lemma {:induction false} NewerSeconds(xs: seq<Entry>, ys: seq<Entry>, t: int)
    requires Seconds(xs) == Seconds(ys)
    ensures |xs| == |ys| && Newer(xs, t) == Newer(ys, t)
    decreases |xs|
  {
    assert |xs| == |Seconds(xs)| == |Seconds(ys)| == |ys|;
    if xs == [] {
    } else {
      var n := |xs| - 1;
      assert Seconds(xs)[n] == xs[n].second && Seconds(ys)[n] == ys[n].second;
      assert Seconds(xs[..n]) == Seconds(xs)[..n] && Seconds(ys[..n]) == Seconds(ys)[..n];
      NewerSeconds(xs[..n], ys[..n], t);
    }
  }

  lemma ShownNewer(lists: seq<seq<Entry>>, views: seq<seq<seq<Entry>>>, size: nat, shown: seq<Entry>, t: int)
    requires size > 0 && AllByAge(lists) && Views(lists, views) && multiset(shown) == multiset(ShownRows(views, size))
    ensures |views| * size >= 0 && Newer(shown, t) == Newer(Concat(Heads(lists, |views| * size)), t)
  {
    var still := ShownRows(Still(lists, |views|), size);
    ShownSeconds(lists, views, size);
    NewerSame(shown, ShownRows(views, size), t);
    NewerSeconds(ShownRows(views, size), still, t);
    StillShown(lists, size, |views|);
    ShownHeads(lists, size, |views|);
    NewerSame(still, Concat(Heads(lists, |views| * size)), t);
  }

  /** However ties come, sorted newest first the rows of pages 1 to p begin with the same p * size times as
      the rows of the whole cluster: the first pages hold the newest rows, up to ties. */
  lemma NewestFirst(lists: seq<seq<Entry>>, views: seq<seq<seq<Entry>>>, size: nat, all: seq<Entry>, shown: seq<Entry>, j: nat)
    requires size > 0 && AllByAge(lists) && Views(lists, views)
    requires Descending(all) && multiset(all) == multiset(Concat(Whole(lists)))
    requires Descending(shown) && multiset(shown) == multiset(ShownRows(views, size))
    requires j < |views| * size && j < |all|
    ensures j < |shown| && shown[j].second == all[j].second
  {
    var n := |views| * size;
    var t := all[j].second;
    AllNewerCount(lists, all, n, t);
    ShownNewer(lists, views, size, shown, t);
    Rank(all, j, t);
    forall i | 0 <= i < |lists| ensures Descending(lists[i]) { SecondsFall(lists[i]); }
    if Newer(Concat(Tails(lists, n)), t) > 0 { TailBehindHeads(lists, n, t); }
    Rank(shown, j, t);
    var t' := shown[j].second;
    Rank(shown, j, t');
    AllNewerCount(lists, all, n, t');
    ShownNewer(lists, views, size, shown, t');
    Rank(all, j, t');
  }

  lemma SecondsFall(xs: seq<Entry>)
    requires ByAge(xs)
    ensures Descending(xs)
  {
  }

  lemma AllNewerCount(lists: seq<seq<Entry>>, all: seq<Entry>, n: nat, t: int)
    requires multiset(all) == multiset(Concat(Whole(lists)))
    ensures Newer(all, t) == Newer(Concat(Heads(lists, n)), t) + Newer(Concat(Tails(lists, n)), t)
  {
    HeadsAndTails(lists, n, t);
    NewerSame(all, Concat(Whole(lists)), t);
  }

  // ---- pages that GetFileList has deduplicated ----

  predicate SecondsDiffer(xs: seq<Entry>) {
    forall i, j :: 0 <= i < j < |xs| ==> xs[i].second != xs[j].second
  }

  /** `pages` are the merged pages 1, 2 and so on, each sorted newest first in some way. */
  ghost predicate Merged(views: seq<seq<seq<Entry>>>, size: nat, pages: seq<seq<Entry>>)
    requires size > 0
  {
    && |pages| == |views|
    && forall q :: 0 <= q < |pages| ==>
         Descending(pages[q]) && multiset(pages[q]) == multiset(Concat(NodePages(views[q], size, q + 1)))
  }

  /** Everything GetFileList shows of those pages. */
  function ListedRows(pages: seq<seq<Entry>>): multiset<Entry> {
    if pages == [] then multiset{} else ListedRows(pages[..|pages| - 1]) + multiset(Uniq(pages[|pages| - 1]))
  }

  lemma {:induction false} UniqFull(xs: seq<Entry>)
    ensures |Uniq(xs)| == |xs| <==> Uniq(xs) == xs
  {
    if xs == [] {
    } else {
      var n := |xs| - 1;
      UniqShorter(xs[..n]);
      UniqFull(xs[..n]);
      assert xs == xs[..n] + [xs[n]];
    }
  }

  predicate KeptWhole(pages: seq<seq<Entry>>) {
    forall q :: 0 <= q < |pages| ==> Uniq(pages[q]) == pages[q]
  }

  lemma KeptInit(pages: seq<seq<Entry>>)
    requires pages != []
    ensures KeptWhole(pages) <==> KeptWhole(pages[..|pages| - 1]) && Uniq(pages[|pages| - 1]) == pages[|pages| - 1]
  {
    hide Uniq;
    assert forall q :: 0 <= q < |pages| - 1 ==> pages[..|pages| - 1][q] == pages[q];
  }

  lemma OnePageMore(a: multiset<Entry>, b: seq<Entry>, xs: seq<Entry>, last: seq<Entry>)
    requires |a| <= |b| && multiset(xs) == multiset(last)
    ensures |a + multiset(Uniq(xs))| <= |b + last|
    ensures |a + multiset(Uniq(xs))| == |b + last| ==> |a| == |b| && Uniq(xs) == xs
    ensures a == multiset(b) && Uniq(xs) == xs ==> a + multiset(Uniq(xs)) == multiset(b + last)
  {
    UniqShorter(xs);
    UniqFull(xs);
    hide Uniq;
    assert |multiset(Uniq(xs))| == |Uniq(xs)| && |xs| == |multiset(xs)| == |multiset(last)| == |last|;
  }

  /** Deduplicated pages show no more rows than the pages hold, and all of them only if none was dropped. */
  lemma {:induction false} ListedMost(views: seq<seq<seq<Entry>>>, size: nat, pages: seq<seq<Entry>>)
    requires size > 0 && Merged(views, size, pages)
    ensures |ListedRows(pages)| <= |ShownRows(views, size)|
    ensures |ListedRows(pages)| == |ShownRows(views, size)| ==> KeptWhole(pages)
    ensures KeptWhole(pages) ==> ListedRows(pages) == multiset(ShownRows(views, size))
    decreases |pages|
  {
    if pages == [] {
    } else {
      hide Uniq, NodePages, Concat, Descending, KeptWhole;
      var n := |pages| - 1;
      assert Merged(views[..n], size, pages[..n]);
      ListedMost(views[..n], size, pages[..n]);
      OnePageMore(ListedRows(pages[..n]), ShownRows(views[..n], size), pages[n], Concat(NodePages(views[n], size, n + 1)));
      KeptInit(pages);
    }
  }

  lemma {:induction false} ConcatFrom(ps: seq<PageData>, e: Entry)
    requires e in Concat(ps)
    ensures exists i :: 0 <= i < |ps| && e in ps[i].data
  {
    if e in ps[|ps| - 1].data {
    } else {
      ConcatFrom(ps[..|ps| - 1], e);
    }
  }

  /** The merged page, before anything is dropped, has no two rows of one second. */
  predicate OneASecond(lists: seq<seq<Entry>>, size: nat, page: nat)
    requires size > 0 && page > 0
  {
    SecondsDiffer(Concat(NodePages(lists, size, page)))
  }

  predicate Unnumbered(lists: seq<seq<Entry>>) {
    forall rows, e :: rows in lists && e in rows ==> e.id == 0
  }

  lemma PageUnnumbered(lists: seq<seq<Entry>>, view: seq<seq<Entry>>, size: nat, page: nat, e: Entry)
    requires size > 0 && page > 0 && View(lists, view) && Unnumbered(lists) && e in Concat(NodePages(view, size, page))
    ensures e.id == 0
  {
    var ps := NodePages(view, size, page);
    ConcatFrom(ps, e);
    var i :| 0 <= i < |ps| && e in ps[i].data;
    assert e in multiset(view[i]) && e in multiset(lists[i]);
    assert lists[i] in lists && e in lists[i];
  }

  lemma PageKeeps(lists: seq<seq<Entry>>, view: seq<seq<Entry>>, size: nat, page: nat, xs: seq<Entry>)
    requires size > 0 && page > 0 && AllByAge(lists) && View(lists, view) && Unnumbered(lists)
    requires multiset(xs) == multiset(Concat(NodePages(view, size, page)))
    ensures Uniq(xs) == xs <==> OneASecond(lists, size, page)
  {
    hide Uniq, Concat, NodePages, View, Unnumbered;
    var ys := Concat(NodePages(view, size, page));
    forall e | e in xs ensures e.id == 0 {
      assert e in multiset(ys);
      PageUnnumbered(lists, view, size, page, e);
    }
    KeepsAllIff(xs);
    ViewSeconds(lists, view, size, page);
    SameSpread(ys, Concat(NodePages(lists, size, page)));
    if SecondsDiffer(xs) { SpreadPermuted(xs, ys); }
    if SecondsDiffer(ys) { SpreadPermuted(ys, xs); }
  }

  lemma SpreadPermuted(xs: seq<Entry>, ys: seq<Entry>)
    requires multiset(xs) == multiset(ys) && SecondsDiffer(xs)
    ensures SecondsDiffer(ys)
  {
    KeysStayApart(xs, ys, (e: Entry) => e.second);
  }

  lemma SameSpread(xs: seq<Entry>, ys: seq<Entry>)
    requires Seconds(xs) == Seconds(ys)
    ensures SecondsDiffer(xs) <==> SecondsDiffer(ys)
  {
    assert |xs| == |Seconds(xs)| == |Seconds(ys)| == |ys|;
    assert forall i :: 0 <= i < |xs| ==> xs[i].second == Seconds(xs)[i] == Seconds(ys)[i] == ys[i].second;
  }

  lemma SortedMerge(xs: seq<Entry>)
    ensures Descending(Sort(xs, AtLeastAsNew)) && multiset(Sort(xs, AtLeastAsNew)) == multiset(xs)
  {
    SortSorts(xs, AtLeastAsNew);
  }

  /** Each merged page can be sorted. */
  lemma SomeMerged(views: seq<seq<seq<Entry>>>, size: nat) returns (pages: seq<seq<Entry>>)
    requires size > 0
    ensures Merged(views, size, pages)
  {
    hide Sort, Concat, NodePages, Descending;
    pages := seq(|views|, q requires 0 <= q < |views| => Sort(Concat(NodePages(views[q], size, q + 1)), AtLeastAsNew));
    forall q | 0 <= q < |views|
      ensures Descending(pages[q]) && multiset(pages[q]) == multiset(Concat(NodePages(views[q], size, q + 1)))
    {
      SortedMerge(Concat(NodePages(views[q], size, q + 1)));
    }
  }

  /** What GetFileList lists over pages 1 to p is every row of the cluster once. */
  ghost predicate AllOnce(lists: seq<seq<Entry>>, pages: seq<seq<Entry>>) {
    ListedRows(pages) == multiset(Concat(Whole(lists)))
  }

  lemma ShownLength(lists: seq<seq<Entry>>, views: seq<seq<seq<Entry>>>, size: nat)
    requires size > 0 && AllByAge(lists) && Views(lists, views) && forall i :: 0 <= i < |lists| ==> |lists[i]| <= |views| * size
    ensures |ShownRows(views, size)| == |Concat(Whole(lists))|
  {
    hide View;
    ShownSeconds(lists, views, size);
    NewerSeconds(ShownRows(views, size), ShownRows(Still(lists, |views|), size), 0);
    StillShown(lists, size, |views|);
    EveryRowOnce(lists, size, |views|);
    assert |multiset(ShownRows(Still(lists, |views|), size))| == |multiset(Concat(Whole(lists)))|;
  }

  /** Paging a list that goes through GetFileList, with pages enough for the longest node and the primary
      keys lost in transport, shows every row of the cluster once, however ties come, exactly when no
      boundary between two pages cuts a tie on any node and no merged page holds two rows of one second. */
  lemma ListedOnceIff(lists: seq<seq<Entry>>, size: nat, n: nat)
    requires size > 0 && n > 0 && AllByAge(lists) && Unnumbered(lists) && forall i :: 0 <= i < |lists| ==> |lists[i]| <= n * size
    ensures (forall views, pages :: |views| == n && Views(lists, views) && Merged(views, size, pages) ==> AllOnce(lists, pages))
       <==> NoTieCut(lists, size, n - 1) && forall q :: 1 <= q <= n ==> OneASecond(lists, size, q)
  {
    hide ListedRows, Concat, Whole, NodePages, Uniq, OneASecond, Descending, ShownRows, View, NoTieCut;
    if NoTieCut(lists, size, n - 1) && forall q :: 1 <= q <= n ==> OneASecond(lists, size, q) {
      forall views, pages | |views| == n && Views(lists, views) && Merged(views, size, pages) ensures AllOnce(lists, pages) {
        KeptIff(lists, views, size, pages);
        EveryRowOnceIff(lists, size, n);
        ListedMost(views, size, pages);
      }
    }
    if forall views, pages :: |views| == n && Views(lists, views) && Merged(views, size, pages) ==> AllOnce(lists, pages) {
      forall views | |views| == n && Views(lists, views)
        ensures multiset(ShownRows(views, size)) == multiset(Concat(Whole(lists))) && forall q :: 1 <= q <= n ==> OneASecond(lists, size, q)
      {
        var pages := SomeMerged(views, size);
        assert AllOnce(lists, pages);
        AllKept(lists, views, size, pages);
      }
      EveryRowOnceIff(lists, size, n);
      StillViews(lists, n);
    }
  }

  lemma AllKept(lists: seq<seq<Entry>>, views: seq<seq<seq<Entry>>>, size: nat, pages: seq<seq<Entry>>)
    requires size > 0 && AllByAge(lists) && Unnumbered(lists) && forall i :: 0 <= i < |lists| ==> |lists[i]| <= |views| * size
    requires Views(lists, views) && Merged(views, size, pages) && AllOnce(lists, pages)
    ensures multiset(ShownRows(views, size)) == multiset(Concat(Whole(lists)))
    ensures forall q :: 1 <= q <= |views| ==> OneASecond(lists, size, q)
  {
    hide ListedRows, Concat, Whole, NodePages, Uniq, OneASecond, Descending, ShownRows, View, KeptWhole;
    ShownLength(lists, views, size);
    assert |ListedRows(pages)| == |multiset(Concat(Whole(lists)))| == |Concat(Whole(lists))|;
    ListedMost(views, size, pages);
    KeptIff(lists, views, size, pages);
  }

  lemma KeptIff(lists: seq<seq<Entry>>, views: seq<seq<seq<Entry>>>, size: nat, pages: seq<seq<Entry>>)
    requires size > 0 && AllByAge(lists) && Unnumbered(lists) && Views(lists, views) && Merged(views, size, pages)
    ensures KeptWhole(pages) <==> forall q :: 1 <= q <= |views| ==> OneASecond(lists, size, q)
  {
    hide Concat, NodePages, Uniq, OneASecond, Descending, View;
    forall q | 0 <= q < |pages| ensures Uniq(pages[q]) == pages[q] <==> OneASecond(lists, size, q + 1) {
      PageKeeps(lists, views[q], size, q + 1, pages[q]);
    }
    if KeptWhole(pages) {
      forall q | 1 <= q <= |views| ensures OneASecond(lists, size, q) { assert Uniq(pages[q - 1]) == pages[q - 1]; }
    }
  }
}
