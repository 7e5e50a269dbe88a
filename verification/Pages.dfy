/** Merging the pages of several nodes: append, sort newest first, drop repeated keys. */
module Pages {
  import opened Messages
  import opened Sorting

  /** A listed record: `id` is its primary key on its node, which the wire format leaves out; `at` is when
      it was created. Keys and merged lists use the whole seconds of it. */
  datatype Entry = Entry(id: nat, at: int, fileId: string) {
    const second: int := at / SECOND
  }

  // ---- keys ----

  function Digit(d: nat): char
    requires d < 10
  {
    "0123456789"[d]
  }

  function Decimal(n: nat): (r: string)
    ensures r != "" && forall c :: c in r ==> '0' <= c <= '9'
  {
    if n < 10 then [Digit(n)] else Decimal(n / 10) + [Digit(n % 10)]
  }

  function SignedDecimal(n: int): string {
    if n < 0 then "-" + Decimal(-n) else Decimal(n)
  }

  function UniqKey(e: Entry): string {
    Decimal(e.id) + "_" + SignedDecimal(e.second)
  }

  lemma {:induction false} DecimalInjective(m: nat, n: nat)
    requires Decimal(m) == Decimal(n)
    ensures m == n
  {
    var a, b := Decimal(m), Decimal(n);
    DigitInjective(m % 10, n % 10);
    assert a[|a| - 1] == Digit(m % 10) && b[|b| - 1] == Digit(n % 10);
    assert (m < 10) == (|a| == 1) && (n < 10) == (|b| == 1);
    if m < 10 {
    } else {
      assert a[..|a| - 1] == Decimal(m / 10) && b[..|b| - 1] == Decimal(n / 10);
      DecimalInjective(m / 10, n / 10);
    }
  }

  lemma DigitInjective(a: nat, b: nat)
    requires a < 10 && b < 10
    ensures Digit(a) == Digit(b) ==> a == b
  {
  }

  lemma SignedDecimalInjective(m: int, n: int)
    requires SignedDecimal(m) == SignedDecimal(n)
    ensures m == n
  {
    if m < 0 && n < 0 {
      assert SignedDecimal(m)[1..] == Decimal(-m) && SignedDecimal(n)[1..] == Decimal(-n);
      DecimalInjective(-m, -n);
    } else if m >= 0 && n >= 0 {
      DecimalInjective(m, n);
    } else {
      var p := if m < 0 then n else m;
      assert SignedDecimal(m)[0] == '-' && Decimal(p)[0] in Decimal(p);
    }
  }

  /** Cut at the first occurrence of a character that the left parts do not hold. */
  lemma {:induction false} CutInjective(a: string, b: string, c: string, d: string, sep: char)
    requires sep !in a && sep !in c && a + [sep] + b == c + [sep] + d
    ensures a == c && b == d
    decreases |a|
  {
    var x, y := a + [sep] + b, c + [sep] + d;
    assert x[0] == (if a == [] then sep else a[0]) && (a != [] ==> a[0] in a);
    assert y[0] == (if c == [] then sep else c[0]) && (c != [] ==> c[0] in c);
    assert a == [] <==> c == [];
    if a == [] {
      assert x[1..] == b && y[1..] == d;
    } else {
      assert x[1..] == a[1..] + [sep] + b && y[1..] == c[1..] + [sep] + d;
      CutInjective(a[1..], b, c[1..], d, sep);
      assert a == [a[0]] + a[1..] && c == [c[0]] + c[1..];
    }
  }

  /** The printed key identifies the primary key and the second of creation, nothing else. */
  lemma KeyInjective(a: Entry, b: Entry)
    ensures UniqKey(a) == UniqKey(b) <==> a.id == b.id && a.second == b.second
    ensures a.second == b.second <==> a.at / 1_000_000_000 == b.at / 1_000_000_000
  {
    if UniqKey(a) == UniqKey(b) {
      assert '_' !in Decimal(a.id) && '_' !in Decimal(b.id);
      CutInjective(Decimal(a.id), SignedDecimal(a.second), Decimal(b.id), SignedDecimal(b.second), '_');
      DecimalInjective(a.id, b.id);
      SignedDecimalInjective(a.second, b.second);
    }
  }

  // ---- the merge ----

  /** A page as one node answers it. */
  datatype PageData = PageData(total: nat, data: seq<Entry>)

  function Concat(pages: seq<PageData>): seq<Entry> {
    if pages == [] then [] else Concat(pages[..|pages| - 1]) + pages[|pages| - 1].data
  }

  function TotalOf(pages: seq<PageData>): nat {
    if pages == [] then 0 else TotalOf(pages[..|pages| - 1]) + pages[|pages| - 1].total
  }

  predicate Descending(xs: seq<Entry>) {
    forall i, j :: 0 <= i < j < |xs| ==> xs[i].second >= xs[j].second
  }

  function KeySet(xs: seq<Entry>): (r: set<string>)
    ensures forall e :: e in xs ==> UniqKey(e) in r
  {
    if xs == [] then {}
    else
      var n := |xs| - 1;
      assert xs == xs[..n] + [xs[n]];
      KeySet(xs[..n]) + {UniqKey(xs[n])}
  }

  /** Keep the first entry of every key. */
  function Uniq(xs: seq<Entry>): (r: seq<Entry>)
    ensures forall e :: e in r ==> e in xs
  {
    if xs == [] then []
    else
      var n := |xs| - 1;
      assert xs == xs[..n] + [xs[n]];
      if UniqKey(xs[n]) in KeySet(xs[..n]) then Uniq(xs[..n]) else Uniq(xs[..n]) + [xs[n]]
  }

  lemma UniqNone()
    ensures Uniq([]) == [] && KeySet([]) == {}
  {
  }

  lemma UniqSnoc(xs: seq<Entry>, e: Entry)
    ensures KeySet(xs + [e]) == KeySet(xs) + {UniqKey(e)}
    ensures Uniq(xs + [e]) == if UniqKey(e) in KeySet(xs) then Uniq(xs) else Uniq(xs) + [e]
  {
    assert (xs + [e])[..|xs|] == xs;
  }

  predicate AtLeastAsNew(a: Entry, b: Entry) {
    a.second >= b.second
  }

  /** data.Page. */
  class Page {
    var total: nat
    var data: seq<Entry>

    constructor ()
      ensures total == 0 && data == []
    {
      total, data := 0, [];
    }

    method Merge(page: PageData)
      modifies this
      ensures data == old(data) + page.data && total == old(total) + page.total
    {
      data := data + page.data;
      total := total + page.total;
    }

    /** Newest first; entries of the same second may come out in any order. */
    method Desc()
      modifies this`data
      ensures Descending(data) && multiset(data) == multiset(old(data))
    {
      SortSorts(data, AtLeastAsNew);
      data := Sort(data, AtLeastAsNew);
    }

    method UniqData()
      modifies this`data
      ensures data == Uniq(old(data))
    {
      hide Uniq, UniqKey, KeySet;
      var seen: set<string> := {};
      var clonedData: seq<Entry> := [];
      var items := data;
      UniqNone();
      for i := 0 to |items|
        invariant items == data == old(data)
        invariant seen == KeySet(items[..i]) && clonedData == Uniq(items[..i])
      {
        var itemKey := UniqKey(items[i]);
        UniqSnoc(items[..i], items[i]);
        assert items[..i + 1] == items[..i] + [items[i]];
        if itemKey !in seen {
          seen := seen + {itemKey};
          clonedData := clonedData + [items[i]];
        }
      }
      assert items[..|items|] == items;
      data := clonedData;
    }
  }

  /** rpc.CallAllClient: the clients are asked one after the other in whatever order the map gives;
      a client that fails ends the call. */
  method CallAllClient(clients: map<string, Option<PageData>>, res: Page) returns (ok: bool, ghost order: seq<string>)
    requires res.data == [] && res.total == 0
    modifies res
    ensures ok <==> clients != map[] && forall c :: c in clients ==> clients[c].Some?
    ensures ok ==> Distinct(order) && (forall c :: c in order <==> c in clients)
    ensures ok ==> res.data == Concat(Answers(clients, order)) && res.total == TotalOf(Answers(clients, order))
  {
    order := [];
    if clients == map[] { return false, order; }
    var left := clients.Keys;
    while left != {}
      invariant left <= clients.Keys && Distinct(order)
      invariant forall c :: c in order <==> c in clients.Keys - left
      invariant forall c :: c in order ==> clients[c].Some?
      invariant res.data == Concat(Answers(clients, order)) && res.total == TotalOf(Answers(clients, order))
      decreases left
    {
      var c :| c in left;
      if clients[c].None? { return false, order; }
      res.Merge(clients[c].value);
      assert Answers(clients, order + [c])[..|order|] == Answers(clients, order);
      order := order + [c];
      left := left - {c};
    }
    ok := true;
  }

  /** The answers in the order the clients were asked. */
  function Answers(clients: map<string, Option<PageData>>, order: seq<string>): seq<PageData>
    requires forall c :: c in order ==> c in clients && clients[c].Some?
  {
    seq(|order|, i requires 0 <= i < |order| => clients[order[i]].value)
  }

  /** GetFileList: ask every node, merge, sort, drop repeated keys. */
  method GetFileList(clients: map<string, Option<PageData>>)
    returns (ok: bool, res: Page, ghost order: seq<string>, ghost sorted: seq<Entry>)
    ensures ok <==> clients != map[] && forall c :: c in clients ==> clients[c].Some?
    ensures ok ==> Distinct(order) && (forall c :: c in order <==> c in clients)
    ensures ok ==> res.data == Uniq(sorted) && Descending(sorted)
    ensures ok ==> multiset(sorted) == multiset(Concat(Answers(clients, order))) && res.total == TotalOf(Answers(clients, order))
  {
    res := new Page();
    sorted := [];
    ok, order := CallAllClient(clients, res);
    if !ok { return; }
    res.Desc();
    sorted := res.data;
    res.UniqData();
  }
}
