/**
 The ordering applied to every tag list when a relation file is loaded
 (src/data.rs): highest count first, by a stable sort, so that entries with
 equal counts keep their file order.
 */
module Sorting {
  import opened Tags

  /** Counts never increase along `s`. */
  predicate NonIncreasing(s: seq<ConnectedTag>) {
    forall i, j :: 0 <= i < j < |s| ==> s[i].count >= s[j].count
  }

  /** The entries of `s` whose count is `c`, in their order in `s`. */
  function WithCount(s: seq<ConnectedTag>, c: int): seq<ConnectedTag> {
    if s == [] then []
    else (if s[0].count == c then [s[0]] else []) + WithCount(s[1..], c)
  }

  /**
   `r` is `s` stably sorted by count, highest first: a permutation of `s`
   whose counts never increase and in which the entries of each count come
   in the same order as in `s`.
   */
  ghost predicate StablySorted(r: seq<ConnectedTag>, s: seq<ConnectedTag>) {
    && NonIncreasing(r)
    && multiset(r) == multiset(s)
    && forall c :: WithCount(r, c) == WithCount(s, c)
  }

  /** Places `x` in front of the first entry whose count is not above its own. */
  function InsertByCount(x: ConnectedTag, s: seq<ConnectedTag>): (r: seq<ConnectedTag>)
    requires NonIncreasing(s)
    ensures NonIncreasing(r)
    ensures multiset(r) == multiset(s) + multiset{x}
  {
    if s == [] || x.count >= s[0].count then
      ConsNonIncreasing(x, s);
      [x] + s
    else
      var rest := InsertByCount(x, s[1..]);
      assert s == [s[0]] + s[1..];
      HeadOutranksInsert(x, s, rest);
      ConsNonIncreasing(s[0], rest);
      [s[0]] + rest
  }

  /** An entry counting at least as much as the head of a non-increasing list can go in front of it. */
  lemma ConsNonIncreasing(y: ConnectedTag, s: seq<ConnectedTag>)
    requires NonIncreasing(s) && (s == [] || y.count >= s[0].count)
    ensures NonIncreasing([y] + s)
  {
    var r := [y] + s;
    forall i, j | 0 <= i < j < |r| ensures r[i].count >= r[j].count {
      if i == 0 {
        assert r[j] == s[j - 1];
        assert s[0].count >= s[j - 1].count;
      } else {
        assert r[i] == s[i - 1] && r[j] == s[j - 1];
      }
    }
  }

  /** When `x` goes after the head, the head still counts at least as much as everything after it. */
  lemma HeadOutranksInsert(x: ConnectedTag, s: seq<ConnectedTag>, rest: seq<ConnectedTag>)
    requires NonIncreasing(s) && s != [] && x.count < s[0].count
    requires multiset(rest) == multiset(s[1..]) + multiset{x}
    ensures forall j :: 0 <= j < |rest| ==> s[0].count >= rest[j].count
  {
    forall j | 0 <= j < |rest| ensures s[0].count >= rest[j].count {
      assert rest[j] in multiset(rest);
      if rest[j] != x {
        assert rest[j] in multiset(s[1..]);
        var k :| 0 <= k < |s[1..]| && s[1..][k] == rest[j];
        assert s[k + 1] == rest[j];
      }
    }
  }

  /** Inserting `x` adds it to the front of its count class and leaves the other classes alone. */
  lemma {:induction false} InsertByCountClasses(x: ConnectedTag, s: seq<ConnectedTag>, c: int)
    requires NonIncreasing(s)
    ensures WithCount(InsertByCount(x, s), c) == (if x.count == c then [x] else []) + WithCount(s, c)
  {
    var r := InsertByCount(x, s);
    if s == [] || x.count >= s[0].count {
      assert r[1..] == s;
    } else {
      var rest := InsertByCount(x, s[1..]);
      assert r == [s[0]] + rest;
      assert r[1..] == rest;
      InsertByCountClasses(x, s[1..], c);
    }
  }

  /**
   The sort applied to each tag list on load (insertion sort, which is
   stable like the source's `sort_by`).
   */
  function SortByCount(s: seq<ConnectedTag>): (r: seq<ConnectedTag>)
    ensures StablySorted(r, s)
  {
    if s == [] then []
    else
      var sorted := SortByCount(s[1..]);
      assert s == [s[0]] + s[1..];
      InsertKeepsStable(s[0], s[1..], sorted);
      InsertByCount(s[0], sorted)
  }

  /** Inserting the new head of a list into the stable sort of its tail gives the stable sort of the list. */
  lemma InsertKeepsStable(x: ConnectedTag, tail: seq<ConnectedTag>, sorted: seq<ConnectedTag>)
    requires StablySorted(sorted, tail)
    ensures StablySorted(InsertByCount(x, sorted), [x] + tail)
  {
    var r := InsertByCount(x, sorted);
    forall c ensures WithCount(r, c) == WithCount([x] + tail, c) {
      InsertByCountClasses(x, sorted, c);
      assert ([x] + tail)[1..] == tail;
    }
  }

  /** Membership in a count class. */
  lemma {:induction false} InWithCount(s: seq<ConnectedTag>, c: int, t: ConnectedTag)
    ensures t in WithCount(s, c) <==> t in s && t.count == c
  {
    if s != [] {
      InWithCount(s[1..], c, t);
      assert s == [s[0]] + s[1..];
    }
  }

  /** Lists that agree on every count class are empty together. */
  lemma SameClassesBothEmpty(a: seq<ConnectedTag>, b: seq<ConnectedTag>)
    requires forall c :: WithCount(a, c) == WithCount(b, c)
    ensures a == [] <==> b == []
  {
    if a != [] {
      InWithCount(a, a[0].count, a[0]);
      InWithCount(b, a[0].count, a[0]);
    }
    if b != [] {
      InWithCount(b, b[0].count, b[0]);
      InWithCount(a, b[0].count, b[0]);
    }
  }

  /** The head of a non-increasing list has the largest count of every list with its classes. */
  lemma HeadCountIsMaximal(a: seq<ConnectedTag>, b: seq<ConnectedTag>)
    requires a != [] && b != [] && NonIncreasing(b)
    requires forall c :: WithCount(a, c) == WithCount(b, c)
    ensures b[0].count >= a[0].count
  {
    InWithCount(a, a[0].count, a[0]);
    assert a[0] in WithCount(b, a[0].count);
    InWithCount(b, a[0].count, a[0]);
    var i :| 0 <= i < |b| && b[i] == a[0];
  }

  /**
   A stable descending sort has exactly one possible outcome: two
   non-increasing lists that agree on every count class are equal.
   */
  lemma {:induction false} StableSortUnique(a: seq<ConnectedTag>, b: seq<ConnectedTag>)
    requires NonIncreasing(a) && NonIncreasing(b)
    requires forall c :: WithCount(a, c) == WithCount(b, c)
    ensures a == b
  {
    SameClassesBothEmpty(a, b);
    if a != [] {
      HeadCountIsMaximal(a, b);
      HeadCountIsMaximal(b, a);
      var top := a[0].count;
      assert WithCount(a, top) == [a[0]] + WithCount(a[1..], top);
      assert WithCount(b, top) == [b[0]] + WithCount(b[1..], top);
      assert a[0] == b[0] by {
        assert WithCount(a, top)[0] == WithCount(b, top)[0];
      }
      forall c
        ensures WithCount(a[1..], c) == WithCount(b[1..], c)
      {
        assert WithCount(a, c) == WithCount(b, c);
        if c == top {
          assert WithCount(a, c)[1..] == WithCount(a[1..], c);
          assert WithCount(b, c)[1..] == WithCount(b[1..], c);
        } else {
          assert WithCount(a, c) == WithCount(a[1..], c);
          assert WithCount(b, c) == WithCount(b[1..], c);
        }
      }
      StableSortUnique(a[1..], b[1..]);
      assert a == [a[0]] + a[1..];
      assert b == [b[0]] + b[1..];
    }
  }

  /** The load sort is the one and only stable descending order of a list. */
  lemma SortByCountIsTheStableSort(s: seq<ConnectedTag>, r: seq<ConnectedTag>)
    ensures StablySorted(r, s) <==> r == SortByCount(s)
  {
    if StablySorted(r, s) {
      StableSortUnique(r, SortByCount(s));
    }
  }
}
