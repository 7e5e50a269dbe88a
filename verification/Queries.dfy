/** The list query. */
module Queries {
  import opened Messages
  import opened Tables
  import Sorting

  // A time window, and a join with the tags for every tag asked for.

  /** `from` and `to` are Unix seconds. */
  datatype Query = Query(size: int, page: int, from: Option<int>, to: Option<int>, tags: seq<Tag>)

  /** SQL's `value LIKE '%part%'`. */
  type Like = (string, string) -> bool

  predicate InWindow(x: Row, q: Query) {
    && (q.from.Some? ==> x.createdAt > q.from.value * SECOND)
    && (q.to.Some? ==> x.createdAt < q.to.value * SECOND)
  }

  predicate TagMatches(t: Tag, asked: Tag, like: Like) {
    t.key == asked.key && like(t.value, asked.value)
  }

  /** How many of the tags match one tag of the query. */
  function Matching(tags: seq<Tag>, asked: Tag, like: Like): nat {
    if tags == [] then 0
    else Matching(tags[1..], asked, like) + if TagMatches(tags[0], asked, like) then 1 else 0
  }

  /** How many rows the joins make of one: every choice of a matching tag for each tag of the query. */
  function Choices(tags: seq<Tag>, asked: seq<Tag>, like: Like): nat {
    if asked == [] then 1 else Matching(tags, asked[0], like) * Choices(tags, asked[1..], like)
  }

  function Times(x: Row, q: Query, like: Like): nat {
    if x.live && InWindow(x, q) then Choices(x.tags, q.tags, like) else 0
  }

  function Copies(x: Row, n: nat): (r: seq<Row>)
    ensures |r| == n && multiset(r)[x] == n
    ensures forall y :: y != x ==> multiset(r)[y] == 0
  {
    if n == 0 then [] else Copies(x, n - 1) + [x]
  }

  /** The joined rows, before they are ordered. */
  function Joined(rows: seq<Row>, q: Query, like: Like): seq<Row> {
    if rows == [] then []
    else Joined(rows[..|rows| - 1], q, like) + Copies(rows[|rows| - 1], Times(rows[|rows| - 1], q, like))
  }

  /** `order` has every row as often as the joins make it, newest first. */
  ghost predicate JoinsInOrder(rows: seq<Row>, order: seq<Row>, q: Query, like: Like) {
    && Sorting.Sorted(order, ByTime(true))
    && forall x :: multiset(order)[x] == if x in rows then Times(x, q, like) else 0
  }

  function Found(rows: seq<Row>, q: Query, like: Like): seq<Row> {
    Sorting.Sort(Joined(rows, q, like), ByTime(true))
  }

  lemma {:induction false} JoinedTimes(rows: seq<Row>, q: Query, like: Like)
    requires Numbered(rows)
    ensures forall x :: multiset(Joined(rows, q, like))[x] == if x in rows then Times(x, q, like) else 0
  {
    if rows == [] {
    } else {
      hide Times;
      var n := |rows| - 1;
      JoinedTimes(rows[..n], q, like);
      assert rows == rows[..n] + [rows[n]];
      assert forall x :: x in rows[..n] ==> x.id != rows[n].id;
    }
  }

  lemma FoundJoins(rows: seq<Row>, q: Query, like: Like)
    requires Numbered(rows)
    ensures JoinsInOrder(rows, Found(rows, q, like), q, like)
  {
    hide Times;
    JoinedTimes(rows, q, like);
    Sorting.SortSorts(Joined(rows, q, like), ByTime(true));
  }

  // ---- which rows are listed ----

  predicate Offered(tags: seq<Tag>, asked: Tag, like: Like) {
    exists t :: t in tags && t.key == asked.key && like(t.value, asked.value)
  }

  /** A live row, created strictly between the two whole seconds, with a tag for every tag asked for. */
  predicate Matches(x: Row, q: Query, like: Like) {
    && x.live
    && (q.from.Some? ==> q.from.value * 1_000_000_000 < x.createdAt)
    && (q.to.Some? ==> x.createdAt < q.to.value * 1_000_000_000)
    && forall asked :: asked in q.tags ==> Offered(x.tags, asked, like)
  }

  lemma {:induction false} MatchingCount(tags: seq<Tag>, asked: Tag, like: Like)
    ensures Matching(tags, asked, like) > 0 <==> Offered(tags, asked, like)
  {
    if tags == [] {
    } else {
      MatchingCount(tags[1..], asked, like);
      assert tags == [tags[0]] + tags[1..];
      if Offered(tags[1..], asked, like) {
        var t :| t in tags[1..] && t.key == asked.key && like(t.value, asked.value);
        assert t in tags;
      }
    }
  }

  lemma TimesMatches(x: Row, q: Query, like: Like)
    ensures Times(x, q, like) > 0 <==> Matches(x, q, like)
  {
    hide Matching, Choices, Offered;
    ChoicesCount(x.tags, q.tags, like);
    forall asked ensures Matching(x.tags, asked, like) > 0 <==> Offered(x.tags, asked, like) {
      MatchingCount(x.tags, asked, like);
    }
    if Unmatched(x.tags, q.tags, like) {
      var i :| 0 <= i < |q.tags| && Matching(x.tags, q.tags[i], like) == 0;
      assert q.tags[i] in q.tags && !Offered(x.tags, q.tags[i], like);
    } else {
      forall asked | asked in q.tags ensures Offered(x.tags, asked, like) {
        var i :| 0 <= i < |q.tags| && q.tags[i] == asked;
        assert Matching(x.tags, q.tags[i], like) > 0;
      }
    }
  }

  /** The answer lists exactly the rows that match, newest first. */
  lemma ListedIff(rows: seq<Row>, order: seq<Row>, q: Query, like: Like)
    requires JoinsInOrder(rows, order, q, like)
    ensures forall x :: x in order <==> x in rows && Matches(x, q, like)
    ensures forall i, j :: 0 <= i < j < |order| ==> order[i].createdAt >= order[j].createdAt
  {
    hide Times, Matches;
    forall x ensures x in order <==> x in rows && Matches(x, q, like) {
      TimesMatches(x, q, like);
      assert multiset(order)[x] == if x in rows then Times(x, q, like) else 0;
      assert x in order <==> x in multiset(order);
    }
    forall i, j | 0 <= i < j < |order| ensures order[i].createdAt >= order[j].createdAt {
      assert ByTime(true)(order[i], order[j]);
    }
  }

  // ---- a row listed more than once ----

  predicate Unmatched(tags: seq<Tag>, asked: seq<Tag>, like: Like) {
    exists i :: 0 <= i < |asked| && Matching(tags, asked[i], like) == 0
  }

  /** Some tag of the query matches no tag of the row, or none matches two. */
  predicate OneChoice(tags: seq<Tag>, asked: seq<Tag>, like: Like) {
    Unmatched(tags, asked, like) || forall i :: 0 <= i < |asked| ==> Matching(tags, asked[i], like) <= 1
  }

  lemma UnmatchedTail(tags: seq<Tag>, asked: seq<Tag>, like: Like)
    requires asked != [] && Matching(tags, asked[0], like) != 0
    ensures Unmatched(tags, asked, like) <==> Unmatched(tags, asked[1..], like)
  {
    if Unmatched(tags, asked, like) {
      var i :| 0 <= i < |asked| && Matching(tags, asked[i], like) == 0;
      assert asked[1..][i - 1] == asked[i];
    }
    if Unmatched(tags, asked[1..], like) {
      var i :| 0 <= i < |asked[1..]| && Matching(tags, asked[1..][i], like) == 0;
      assert asked[i + 1] == asked[1..][i];
    }
  }

  lemma {:induction false} ChoicesCount(tags: seq<Tag>, asked: seq<Tag>, like: Like)
    ensures Choices(tags, asked, like) == 0 <==> Unmatched(tags, asked, like)
    ensures Choices(tags, asked, like) <= 1 <==> OneChoice(tags, asked, like)
    decreases |asked|
  {
    if asked == [] {
    } else {
      var m, rest := Matching(tags, asked[0], like), Choices(tags, asked[1..], like);
      ChoicesCount(tags, asked[1..], like);
      assert forall i :: 0 <= i < |asked[1..]| ==> asked[1..][i] == asked[i + 1];
      assert forall i :: 1 <= i < |asked| ==> asked[i] == asked[1..][i - 1];
      if m == 0 {
        assert Unmatched(tags, asked, like);
      } else {
        UnmatchedTail(tags, asked, like);
        assert rest > 0 ==> m * rest >= m && m * rest >= rest;
      }
    }
  }

  /** The answer, and so its total, has no row twice exactly when no row that is live and in the time
      window matches all tags of the query and one of them with two of its own. */
  lemma RepeatsIff(rows: seq<Row>, order: seq<Row>, q: Query, like: Like)
    requires JoinsInOrder(rows, order, q, like)
    ensures (forall x :: x in order ==> multiset(order)[x] == 1)
       <==> (forall x :: x in rows && x.live && InWindow(x, q) ==> OneChoice(x.tags, q.tags, like))
  {
    hide OneChoice, Choices;
    forall x: Row ensures Choices(x.tags, q.tags, like) <= 1 <==> OneChoice(x.tags, q.tags, like) {
      ChoicesCount(x.tags, q.tags, like);
    }
    forall x ensures x in order <==> multiset(order)[x] > 0 { assert x in order <==> x in multiset(order); }
    if forall x :: x in order ==> multiset(order)[x] == 1 {
      forall x | x in rows && x.live && InWindow(x, q) ensures OneChoice(x.tags, q.tags, like) {
        assert multiset(order)[x] == Times(x, q, like);
      }
    }
  }
}
