/** Small facts about the multiset of a sequence's elements. */
module Bags {

  lemma BagOfInit<T>(s: seq<T>)
    requires s != []
    ensures multiset(s) == multiset(s[..|s| - 1]) + multiset{s[|s| - 1]}
  {
    assert s == s[..|s| - 1] + [s[|s| - 1]];
  }

  lemma BagOfTail<T>(s: seq<T>)
    requires s != []
    ensures multiset(s) == multiset(s[1..]) + multiset{s[0]}
  {
    assert s == [s[0]] + s[1..];
  }

  lemma BagCancel<T>(a: multiset<T>, b: multiset<T>, x: T)
    requires a + multiset{x} == b + multiset{x}
    ensures a == b
  {
    assert a == a + multiset{x} - multiset{x} && b == b + multiset{x} - multiset{x};
  }

  lemma BagsCancel<T>(a: multiset<T>, b: multiset<T>, c: multiset<T>)
    requires a + c == b + c
    ensures a == b
  {
    assert a == a + c - c && b == b + c - c;
  }

  lemma BagsExtend<T>(a: multiset<T>, x: multiset<T>, b: multiset<T>, y: multiset<T>, c: multiset<T>)
    requires a + x == b + y
    ensures a + c + x == b + c + y
  {
    assert a + c + x == a + x + c && b + c + y == b + y + c;
  }

  lemma OccursTwice<T>(s: seq<T>, i: nat, j: nat)
    requires i < j < |s| && s[i] == s[j]
    ensures multiset(s)[s[i]] >= 2
  {
    assert s == s[..i] + [s[i]] + s[i + 1..j] + [s[j]] + s[j + 1..];
  }

  lemma TwoPlaces<T>(s: seq<T>, x: T) returns (i: nat, j: nat)
    requires multiset(s)[x] >= 2
    ensures i < j < |s| && s[i] == x && s[j] == x
  {
    assert x in multiset(s);
    var k :| 0 <= k < |s| && s[k] == x;
    assert s == s[..k] + [s[k]] + s[k + 1..];
    if x in s[..k] {
      i :| 0 <= i < k && s[..k][i] == x;
      j := k;
    } else {
      assert x in multiset(s[k + 1..]);
      var m :| 0 <= m < |s[k + 1..]| && s[k + 1..][m] == x;
      i, j := k, k + 1 + m;
    }
  }

  /** Whether a key is repeated does not depend on the arrangement. */
  lemma KeysStayApart<T, K>(xs: seq<T>, ys: seq<T>, key: T -> K)
    requires multiset(xs) == multiset(ys)
    requires forall i, j :: 0 <= i < j < |xs| ==> key(xs[i]) != key(xs[j])
    ensures forall i, j :: 0 <= i < j < |ys| ==> key(ys[i]) != key(ys[j])
  {
    forall i, j | 0 <= i < j < |ys| ensures key(ys[i]) != key(ys[j]) {
      if ys[i] == ys[j] {
        OccursTwice(ys, i, j);
        var a, b := TwoPlaces(xs, ys[i]);
        assert false;
      } else {
        assert ys[i] in multiset(xs) && ys[j] in multiset(xs);
        var a :| 0 <= a < |xs| && xs[a] == ys[i];
        var b :| 0 <= b < |xs| && xs[b] == ys[j];
        assert a < b || b < a;
      }
    }
  }
}
