/** Merging does not depend on order. */
module Merging {
  import opened Bags
  import opened Messages
  import opened Pages

  // Neither the order in which nodes answer nor how ties are sorted shows in the merged list.

  function Seconds(xs: seq<Entry>): seq<int> {
    seq(|xs|, i requires 0 <= i < |xs| => xs[i].second)
  }

  predicate KeysDiffer(xs: seq<Entry>) {
    forall i, j :: 0 <= i < j < |xs| ==> UniqKey(xs[i]) != UniqKey(xs[j])
  }

  // ---- what UniqData leaves ----

  lemma {:induction false} UniqKeys(xs: seq<Entry>)
    ensures KeysDiffer(Uniq(xs)) && KeySet(Uniq(xs)) == KeySet(xs)
  {
    hide UniqKey, KeySet, Uniq;
    if xs == [] {
      UniqNone();
    } else {
      var n := |xs| - 1;
      UniqKeys(xs[..n]);
      UniqSnoc(xs[..n], xs[n]);
      assert xs == xs[..n] + [xs[n]];
      UniqSnoc(Uniq(xs[..n]), xs[n]);
      if UniqKey(xs[n]) !in KeySet(xs[..n]) { DifferSnoc(Uniq(xs[..n]), xs[n]); }
    }
  }

  lemma DifferSnoc(xs: seq<Entry>, e: Entry)
    requires KeysDiffer(xs) && UniqKey(e) !in KeySet(xs)
    ensures KeysDiffer(xs + [e])
  {
    hide UniqKey;
    hide KeySet;
    forall i | 0 <= i < |xs| ensures UniqKey(xs[i]) != UniqKey(e) { assert xs[i] in xs; }
  }

  lemma {:induction false} UniqDescends(xs: seq<Entry>)
    requires Descending(xs)
    ensures Descending(Uniq(xs))
  {
    if xs == [] {
    } else {
      var n := |xs| - 1;
      var u := Uniq(xs[..n]);
      UniqDescends(xs[..n]);
      forall i | 0 <= i < |u| ensures u[i].second >= xs[n].second {
        assert u[i] in u;
        var k :| 0 <= k < n && xs[k] == u[i];
      }
    }
  }

  /** No entry before place `k` has the same primary key and creation second. */
  predicate FirstOfKey(xs: seq<Entry>, k: nat) {
    k < |xs| && forall j :: 0 <= j < k ==> xs[j].id != xs[k].id || xs[j].second != xs[k].second
  }

  lemma {:induction false} KeySetHas(xs: seq<Entry>, key: string)
    ensures key in KeySet(xs) <==> exists e :: e in xs && UniqKey(e) == key
  {
    hide UniqKey;
    if xs == [] {
    } else {
      var n := |xs| - 1;
      KeySetHas(xs[..n], key);
      assert xs == xs[..n] + [xs[n]];
    }
  }

  lemma NewKey(xs: seq<Entry>, n: nat)
    requires n < |xs|
    ensures UniqKey(xs[n]) !in KeySet(xs[..n]) <==> FirstOfKey(xs, n)
  {
    KeySetHas(xs[..n], UniqKey(xs[n]));
    forall j | 0 <= j < n ensures UniqKey(xs[j]) == UniqKey(xs[n]) <==> xs[j].id == xs[n].id && xs[j].second == xs[n].second {
      KeyInjective(xs[j], xs[n]);
    }
    hide UniqKey, KeySet;
    if exists e :: e in xs[..n] && UniqKey(e) == UniqKey(xs[n]) {
      var e :| e in xs[..n] && UniqKey(e) == UniqKey(xs[n]);
      var j :| 0 <= j < n && xs[..n][j] == e;
      assert xs[j] == e;
    } else {
      forall j | 0 <= j < n ensures UniqKey(xs[j]) != UniqKey(xs[n]) { assert xs[j] in xs[..n]; }
    }
  }

  /** `ys` has, in order, the entries of `xs` at the places `ks`: exactly the first of every key. */
  ghost predicate FirstPlaces(xs: seq<Entry>, ys: seq<Entry>, ks: seq<nat>) {
    && |ks| == |ys| && (forall i, j :: 0 <= i < j < |ks| ==> ks[i] < ks[j])
    && (forall i :: 0 <= i < |ks| ==> ks[i] < |xs| && ys[i] == xs[ks[i]])
    && forall k: nat :: k in ks <==> FirstOfKey(xs, k)
  }

  lemma FirstSnoc(xs: seq<Entry>, ys: seq<Entry>, ks: seq<nat>, e: Entry)
    requires FirstPlaces(xs, ys, ks)
    ensures if FirstOfKey(xs + [e], |xs|) then FirstPlaces(xs + [e], ys + [e], ks + [|xs|]) else FirstPlaces(xs + [e], ys, ks)
  {
    var more := xs + [e];
    forall k: nat | k < |xs| ensures FirstOfKey(more, k) <==> FirstOfKey(xs, k) {
      assert forall j :: 0 <= j <= k ==> xs[j] == more[j];
    }
    forall i | 0 <= i < |ks| ensures ks[i] < |xs| && ys[i] == more[ks[i]] {}
    hide FirstOfKey;
    if FirstOfKey(more, |xs|) {
      forall k: nat ensures k in ks + [|xs|] <==> FirstOfKey(more, k) { NoFurther(more, k); }
    } else {
      forall k: nat ensures k in ks <==> FirstOfKey(more, k) { NoFurther(more, k); }
    }
  }

  lemma NoFurther(xs: seq<Entry>, k: nat)
    ensures FirstOfKey(xs, k) ==> k < |xs|
  {
  }

  /** UniqData leaves, in order, the entries at exactly those places that are the first with their primary
      key and second. */
  lemma {:induction false} UniqFirst(xs: seq<Entry>) returns (ks: seq<nat>)
    ensures FirstPlaces(xs, Uniq(xs), ks)
  {
    hide UniqKey, KeySet;
    if xs == [] {
      ks := [];
    } else {
      var n := |xs| - 1;
      var init := UniqFirst(xs[..n]);
      assert xs == xs[..n] + [xs[n]];
      NewKey(xs, n);
      UniqSnoc(xs[..n], xs[n]);
      hide Uniq, FirstPlaces, FirstOfKey;
      FirstSnoc(xs[..n], Uniq(xs[..n]), init, xs[n]);
      ks := if FirstOfKey(xs, n) then init + [n] else init;
    }
  }

  // ---- sequences with the same elements ----

  predicate Falling(s: seq<int>) {
    forall i, j :: 0 <= i < j < |s| ==> s[i] >= s[j]
  }

  lemma LastLeast(s: seq<int>, t: seq<int>)
    requires s != [] && t != [] && Falling(t) && multiset(s) == multiset(t)
    ensures s[|s| - 1] >= t[|t| - 1]
  {
    assert s[|s| - 1] in multiset(t);
    var i :| 0 <= i < |t| && t[i] == s[|s| - 1];
  }

  lemma {:induction false} SortedEqual(s: seq<int>, t: seq<int>)
    requires multiset(s) == multiset(t) && Falling(s) && Falling(t)
    ensures s == t
    decreases |s|
  {
    assert |s| == |multiset(s)| == |multiset(t)| == |t|;
    if s == [] {
    } else {
      var n := |s| - 1;
      LastLeast(s, t);
      LastLeast(t, s);
      BagOfInit(s);
      BagOfInit(t);
      BagCancel(multiset(s[..n]), multiset(t[..n]), s[n]);
      SortedEqual(s[..n], t[..n]);
      assert s == s[..n] + [s[n]] && t == t[..n] + [t[n]];
    }
  }

  function Dropped<T>(xs: seq<T>, k: nat): seq<T>
    requires k < |xs|
  {
    xs[..k] + xs[k + 1..]
  }

  lemma SecondsDropped(xs: seq<Entry>, k: nat)
    requires k < |xs|
    ensures multiset(Seconds(xs)) == multiset(Seconds(Dropped(xs, k))) + multiset{xs[k].second}
  {
    var s := Seconds(xs);
    assert s == s[..k] + [s[k]] + s[k + 1..];
    assert Seconds(Dropped(xs, k)) == s[..k] + s[k + 1..];
  }

  lemma DroppedDiffer(xs: seq<Entry>, k: nat)
    requires k < |xs| && KeysDiffer(xs)
    ensures KeysDiffer(Dropped(xs, k))
  {
    hide UniqKey;
    var d := Dropped(xs, k);
    assert forall i :: 0 <= i < |d| ==> d[i] == xs[if i < k then i else i + 1];
  }

  lemma {:induction false} DroppedKeys(xs: seq<Entry>, k: nat)
    requires k < |xs| && KeysDiffer(xs)
    ensures KeySet(Dropped(xs, k)) == KeySet(xs) - {UniqKey(xs[k])}
  {
    hide UniqKey;
    var n := |xs| - 1;
    if k == n {
      assert Dropped(xs, k) == xs[..n];
      FreshKey(xs[..n], xs[n]);
    } else {
      DroppedKeys(xs[..n], k);
      assert Dropped(xs, k) == Dropped(xs[..n], k) + [xs[n]];
      UniqSnoc(Dropped(xs[..n], k), xs[n]);
    }
  }

  lemma {:induction false} FreshKey(xs: seq<Entry>, e: Entry)
    requires forall i :: 0 <= i < |xs| ==> UniqKey(xs[i]) != UniqKey(e)
    ensures UniqKey(e) !in KeySet(xs)
  {
    hide UniqKey;
    if xs == [] {
    } else {
      FreshKey(xs[..|xs| - 1], e);
    }
  }

  lemma {:induction false} KeyHolder(xs: seq<Entry>, key: string) returns (k: nat)
    requires key in KeySet(xs)
    ensures k < |xs| && UniqKey(xs[k]) == key
  {
    hide UniqKey;
    var n := |xs| - 1;
    if UniqKey(xs[n]) == key { k := n; } else { k := KeyHolder(xs[..n], key); }
  }

  /** Lists with the same keys, none repeated, have the same seconds as often. */
  lemma {:induction false} SameSeconds(xs: seq<Entry>, ys: seq<Entry>)
    requires KeysDiffer(xs) && KeysDiffer(ys) && KeySet(xs) == KeySet(ys)
    ensures multiset(Seconds(xs)) == multiset(Seconds(ys))
    decreases |xs|
  {
    hide UniqKey;
    hide KeySet;
    if xs == [] && ys == [] {
    } else {
      var key := UniqKey(if xs != [] then xs[0] else ys[0]);
      var i := KeyHolder(xs, key);
      var k := KeyHolder(ys, key);
      DroppedDiffer(xs, i);
      DroppedDiffer(ys, k);
      DroppedKeys(xs, i);
      DroppedKeys(ys, k);
      SameSeconds(Dropped(xs, i), Dropped(ys, k));
      SecondsDropped(xs, i);
      SecondsDropped(ys, k);
      KeyInjective(xs[i], ys[k]);
    }
  }

  lemma {:induction false} KeysWithin(xs: seq<Entry>, ys: seq<Entry>)
    requires forall e :: e in xs ==> e in ys
    ensures KeySet(xs) <= KeySet(ys)
  {
    hide UniqKey;
    if xs == [] {
    } else {
      assert forall e :: e in xs[..|xs| - 1] ==> e in xs;
      assert xs[|xs| - 1] in ys;
      KeysWithin(xs[..|xs| - 1], ys);
    }
  }

  lemma SameElements(a: seq<Entry>, b: seq<Entry>)
    requires multiset(a) == multiset(b)
    ensures KeySet(a) == KeySet(b)
  {
    forall e | e in a ensures e in b { assert e in multiset(a); }
    forall e | e in b ensures e in a { assert e in multiset(b); }
    KeysWithin(a, b);
    KeysWithin(b, a);
  }

  /** However the same entries are arranged before and whatever an unstable sort made of ties. */
  lemma MergeIndependent(a: seq<Entry>, b: seq<Entry>)
    requires multiset(a) == multiset(b) && Descending(a) && Descending(b)
    ensures Seconds(Uniq(a)) == Seconds(Uniq(b)) && KeySet(Uniq(a)) == KeySet(Uniq(b))
  {
    hide UniqKey;
    hide KeySet;
    hide Uniq;
    UniqKeys(a);
    UniqKeys(b);
    SameElements(a, b);
    SameSeconds(Uniq(a), Uniq(b));
    UniqDescends(a);
    UniqDescends(b);
    SortedEqual(Seconds(Uniq(a)), Seconds(Uniq(b)));
  }

  // ---- any order of clients ----

  lemma ConcatSnoc(pages: seq<PageData>, p: PageData)
    ensures Concat(pages + [p]) == Concat(pages) + p.data && TotalOf(pages + [p]) == TotalOf(pages) + p.total
  {
    assert (pages + [p])[..|pages|] == pages;
  }

  lemma {:induction false} ConcatDropped(pages: seq<PageData>, k: nat)
    requires k < |pages|
    ensures multiset(Concat(pages)) == multiset(Concat(Dropped(pages, k))) + multiset(pages[k].data)
    ensures TotalOf(pages) == TotalOf(Dropped(pages, k)) + pages[k].total
  {
    hide Concat, TotalOf;
    var n := |pages| - 1;
    assert pages == pages[..n] + [pages[n]];
    ConcatSnoc(pages[..n], pages[n]);
    if k == n {
      assert Dropped(pages, k) == pages[..n];
    } else {
      ConcatDropped(pages[..n], k);
      assert Dropped(pages, k) == Dropped(pages[..n], k) + [pages[n]];
      ConcatSnoc(Dropped(pages[..n], k), pages[n]);
    }
  }

  lemma DroppedElements<T>(xs: seq<T>, k: nat)
    requires k < |xs| && Distinct(xs)
    ensures Distinct(Dropped(xs, k))
    ensures forall c :: c in Dropped(xs, k) <==> c in xs && c != xs[k]
  {
    var d := Dropped(xs, k);
    assert forall i :: 0 <= i < |d| ==> d[i] == xs[if i < k then i else i + 1];
    forall c | c in xs && c != xs[k] ensures c in d {
      var i :| 0 <= i < |xs| && xs[i] == c;
      assert d[if i < k then i else i - 1] == c;
    }
  }

  lemma AnswersDropped(clients: map<string, Option<PageData>>, xs: seq<string>, k: nat)
    requires k < |xs| && forall c :: c in xs ==> c in clients && clients[c].Some?
    ensures forall c :: c in Dropped(xs, k) ==> c in clients && clients[c].Some?
    ensures multiset(Concat(Answers(clients, xs)))
         == multiset(Concat(Answers(clients, Dropped(xs, k)))) + multiset(clients[xs[k]].value.data)
    ensures TotalOf(Answers(clients, xs)) == TotalOf(Answers(clients, Dropped(xs, k))) + clients[xs[k]].value.total
  {
    forall c | c in Dropped(xs, k) ensures c in clients && clients[c].Some? { assert c in xs; }
    ConcatDropped(Answers(clients, xs), k);
    assert Dropped(Answers(clients, xs), k) == Answers(clients, Dropped(xs, k));
  }

  lemma {:induction false} AnyOrder(clients: map<string, Option<PageData>>, xs: seq<string>, ys: seq<string>)
    requires Distinct(xs) && Distinct(ys) && forall c :: c in xs <==> c in ys
    requires forall c :: c in xs ==> c in clients && clients[c].Some?
    ensures multiset(Concat(Answers(clients, xs))) == multiset(Concat(Answers(clients, ys)))
    ensures TotalOf(Answers(clients, xs)) == TotalOf(Answers(clients, ys))
    decreases |xs|
  {
    if xs == [] && ys == [] {
    } else {
      var c := if xs != [] then xs[0] else ys[0];
      assert c in xs && c in ys;
      var i :| 0 <= i < |xs| && xs[i] == c;
      var k :| 0 <= k < |ys| && ys[k] == c;
      DroppedElements(xs, i);
      DroppedElements(ys, k);
      AnswersDropped(clients, xs, i);
      AnswersDropped(clients, ys, k);
      AnyOrder(clients, Dropped(xs, i), Dropped(ys, k));
    }
  }

  /** Two calls of GetFileList that get the same answers from the nodes, whatever the order in which
      the nodes are asked and however ties are sorted, return the same seconds in the same places and
      the same keys; the list is newest first and repeats no key, and the totals agree. */
  lemma ListIndependent(
    clients: map<string, Option<PageData>>, xs: seq<string>, ys: seq<string>, a: seq<Entry>, b: seq<Entry>)
    requires Distinct(xs) && Distinct(ys) && forall c :: c in xs <==> c in ys
    requires forall c :: c in xs ==> c in clients && clients[c].Some?
    requires Descending(a) && multiset(a) == multiset(Concat(Answers(clients, xs)))
    requires Descending(b) && multiset(b) == multiset(Concat(Answers(clients, ys)))
    ensures Seconds(Uniq(a)) == Seconds(Uniq(b)) && KeySet(Uniq(a)) == KeySet(Uniq(b))
    ensures Descending(Uniq(a)) && KeysDiffer(Uniq(a))
    ensures TotalOf(Answers(clients, xs)) == TotalOf(Answers(clients, ys))
  {
    AnyOrder(clients, xs, ys);
    MergeIndependent(a, b);
    UniqKeys(a);
    UniqDescends(a);
  }

  // ---- what the key is not ----

  /** UniqData keeps every entry exactly when no two share a key; once the primary keys are lost in
      transport, that is when no two were created in the same second. */
  lemma {:induction false} KeepsAllIff(xs: seq<Entry>)
    ensures |Uniq(xs)| <= |xs|
    ensures Uniq(xs) == xs <==> KeysDiffer(xs)
    ensures (forall e :: e in xs ==> e.id == 0) ==>
              (Uniq(xs) == xs <==> forall i, j :: 0 <= i < j < |xs| ==> xs[i].second != xs[j].second)
  {
    hide UniqKey;
    UniqKeys(xs);
    UniqShorter(xs);
    if KeysDiffer(xs) { UniqSame(xs); }
    if forall e :: e in xs ==> e.id == 0 {
      forall i, j | 0 <= i < j < |xs| ensures UniqKey(xs[i]) != UniqKey(xs[j]) <==> xs[i].second != xs[j].second {
        assert xs[i] in xs && xs[j] in xs;
        KeyInjective(xs[i], xs[j]);
      }
    }
  }

  lemma {:induction false} UniqShorter(xs: seq<Entry>)
    ensures |Uniq(xs)| <= |xs|
  {
    if xs == [] {
    } else {
      UniqShorter(xs[..|xs| - 1]);
    }
  }

  lemma {:induction false} UniqSame(xs: seq<Entry>)
    requires KeysDiffer(xs)
    ensures Uniq(xs) == xs
  {
    hide UniqKey;
    if xs == [] {
    } else {
      var n := |xs| - 1;
      UniqSame(xs[..n]);
      FreshKey(xs[..n], xs[n]);
      assert xs == xs[..n] + [xs[n]];
    }
  }

  /** Logs are not told apart by file: after transport two files of the same second become one, and
      two rows of one file created in different seconds both stay. */
  lemma NotByFile(a: Entry, b: Entry)
    requires a.id == 0 && b.id == 0
    ensures a.second == b.second ==> Uniq([a, b]) == [a]
    ensures a.second != b.second ==> Uniq([a, b]) == [a, b]
  {
    KeyInjective(a, b);
    hide UniqKey;
    assert [a, b][..1] == [a] && [a][..0] == [];
    assert Uniq([a]) == [a];
    assert a in [a];
  }
}
