/** The common news record every adapter produces, and the order `fetch_news` sorts it in:
    `list.sort(key=lambda x: x['published'], reverse=True)` on Python strings. */
module Articles {
  import opened Wrappers

  datatype Article = Article(
    title: string,
    link: string,
    published: string,
    summary: string,
    image: Option<string>,
    source: string)

  /** Python's `a <= b` on `str`: lexicographic by code point, a proper prefix first. */
  predicate StrLe(a: string, b: string)
    ensures a <= b ==> StrLe(a, b)
    ensures b <= a && a != b ==> !StrLe(a, b)
    decreases |a|
  {
    a == [] || (b != [] && (a[0] < b[0] || (a[0] == b[0] && StrLe(a[1..], b[1..]))))
  }

  lemma {:induction false} StrLeTotal(a: string, b: string)
    ensures StrLe(a, b) || StrLe(b, a)
    decreases |a|
  {
    if a != [] && b != [] && a[0] == b[0] {
      StrLeTotal(a[1..], b[1..]);
    }
  }

  lemma {:induction false} StrLeAntisymmetric(a: string, b: string)
    requires StrLe(a, b) && StrLe(b, a)
    ensures a == b
    decreases |a|
  {
    if a != [] {
      StrLeAntisymmetric(a[1..], b[1..]);
      assert a == [a[0]] + a[1..] && b == [b[0]] + b[1..];
    }
  }

  lemma {:induction false} StrLeTransitive(a: string, b: string, c: string)
    requires StrLe(a, b) && StrLe(b, c)
    ensures StrLe(a, c)
    decreases |a|
  {
    if a != [] && a[0] == b[0] && b[0] == c[0] {
      StrLeTransitive(a[1..], b[1..], c[1..]);
    }
  }

  /** Most recent first: `published` never increases along the sequence. */
  predicate NewestFirst(s: seq<Article>) {
    forall i, j :: 0 <= i < j < |s| ==> StrLe(s[j].published, s[i].published)
  }

  /** The items whose `published` is exactly `key`, in their order in `s`. */
  function WithPublished(s: seq<Article>, key: string): (r: seq<Article>)
    ensures |r| <= |s|
  {
    if s == [] then []
    else (if s[0].published == key then [s[0]] else []) + WithPublished(s[1..], key)
  }

  lemma {:induction false} WithPublishedConcat(a: seq<Article>, b: seq<Article>, key: string)
    ensures WithPublished(a + b, key) == WithPublished(a, key) + WithPublished(b, key)
  {
    if a != [] {
      assert (a + b)[1..] == a[1..] + b;
      WithPublishedConcat(a[1..], b, key);
    } else {
      assert a + b == b;
    }
  }

  /** Places `x` after every item at least as recent as it: the position a stable descending
      sort gives an item that comes after all of `s` in the input. */
  function Insert(s: seq<Article>, x: Article): (r: seq<Article>)
    ensures |r| == |s| + 1 && x in r
  {
    if s == [] then [x]
    else if StrLe(x.published, s[0].published) then [s[0]] + Insert(s[1..], x)
    else [x] + s
  }

  /** Stable sort, newest first, as insertion of each item in input order. */
  function SortNewestFirst(s: seq<Article>): (r: seq<Article>)
    ensures |r| == |s|
  {
    if s == [] then [] else Insert(SortNewestFirst(s[..|s| - 1]), s[|s| - 1])
  }

  lemma {:induction false} InsertPermutes(s: seq<Article>, x: Article)
    ensures multiset(Insert(s, x)) == multiset(s) + multiset{x}
  {
    if s != [] && StrLe(x.published, s[0].published) {
      InsertPermutes(s[1..], x);
      assert s == [s[0]] + s[1..];
    }
  }

  lemma NewestFirstTail(s: seq<Article>)
    requires NewestFirst(s) && s != []
    ensures NewestFirst(s[1..])
  {
    forall i, j | 0 <= i < j < |s| - 1 ensures StrLe(s[1..][j].published, s[1..][i].published) {
      assert s[1..][i] == s[i + 1] && s[1..][j] == s[j + 1];
    }
  }

  /** A sorted list whose every item is no newer than `h` stays sorted with `h` in front. */
  lemma NewestFirstCons(h: Article, t: seq<Article>)
    requires NewestFirst(t)
    requires forall y :: y in t ==> StrLe(y.published, h.published)
    ensures NewestFirst([h] + t)
  {
    var r := [h] + t;
    forall i, j | 0 <= i < j < |r| ensures StrLe(r[j].published, r[i].published) {
      assert r[j] == t[j - 1];
      if i > 0 {
        assert r[i] == t[i - 1];
      }
    }
  }

  /** The head of a sorted list is at least as recent as everything in it. */
  lemma HeadIsNewest(s: seq<Article>)
    requires NewestFirst(s) && s != []
    ensures forall y :: y in s ==> StrLe(y.published, s[0].published)
  {
    forall y | y in s ensures StrLe(y.published, s[0].published) {
      var m :| 0 <= m < |s| && s[m] == y;
      if m == 0 {
        StrLeTotal(y.published, y.published);
      }
    }
  }

  lemma InsertMembers(s: seq<Article>, x: Article)
    ensures forall y :: y in Insert(s, x) ==> y in s || y == x
  {
    InsertPermutes(s, x);
    forall y | y in Insert(s, x) ensures y in s || y == x {
      assert y in multiset(Insert(s, x));
    }
  }

  lemma {:induction false} InsertKeepsOrder(s: seq<Article>, x: Article)
    requires NewestFirst(s)
    ensures NewestFirst(Insert(s, x))
  {
    if s == [] {
    } else if StrLe(x.published, s[0].published) {
      NewestFirstTail(s);
      InsertKeepsOrder(s[1..], x);
      InsertMembers(s[1..], x);
      HeadIsNewest(s);
      forall y | y in Insert(s[1..], x) ensures StrLe(y.published, s[0].published) {
        if y != x {
          assert y in s;
        }
      }
      NewestFirstCons(s[0], Insert(s[1..], x));
    } else {
      StrLeTotal(x.published, s[0].published);
      HeadIsNewest(s);
      forall y | y in s ensures StrLe(y.published, x.published) {
        StrLeTransitive(y.published, s[0].published, x.published);
      }
      NewestFirstCons(x, s);
    }
  }

  /** Inserting into a sorted list keeps every group of equal `published` in input order,
      with `x` last in its group. */
  lemma {:induction false} InsertIsStable(s: seq<Article>, x: Article, key: string)
    requires NewestFirst(s)
    ensures WithPublished(Insert(s, x), key) ==
      WithPublished(s, key) + (if x.published == key then [x] else [])
  {
    var tail := if x.published == key then [x] else [];
    if s == [] {
      assert WithPublished([x], key) == tail + WithPublished([], key);
    } else if StrLe(x.published, s[0].published) {
      var head := if s[0].published == key then [s[0]] else [];
      var rest := Insert(s[1..], x);
      NewestFirstTail(s);
      InsertIsStable(s[1..], x, key);
      assert ([s[0]] + rest)[1..] == rest;
      assert WithPublished([s[0]] + rest, key) == head + WithPublished(rest, key);
      assert WithPublished(s, key) == head + WithPublished(s[1..], key);
      assert head + (WithPublished(s[1..], key) + tail) == (head + WithPublished(s[1..], key)) + tail;
    } else {
      assert ([x] + s)[1..] == s;
      assert WithPublished([x] + s, key) == tail + WithPublished(s, key);
      if x.published == key {
        NoneWithNewerKey(s, key);
        assert tail + [] == [] + tail;
      } else {
        assert WithPublished(s, key) + [] == [] + WithPublished(s, key);
      }
    }
  }

  /** In a sorted list whose head is strictly older than `key`, nothing has `published == key`. */
  lemma {:induction false} NoneWithNewerKey(s: seq<Article>, key: string)
    requires NewestFirst(s) && s != [] && !StrLe(key, s[0].published)
    ensures WithPublished(s, key) == []
    decreases |s|
  {
    if s[0].published == key {
      StrLeTotal(key, s[0].published);
    }
    if |s| > 1 {
      if StrLe(key, s[1].published) {
        StrLeTransitive(key, s[1].published, s[0].published);
      }
      NewestFirstTail(s);
      NoneWithNewerKey(s[1..], key);
    }
  }

  /** The sort returns a permutation of its input, newest first, and keeps items with equal
      `published` in their input order (Python's sort is stable and `reverse=True` keeps it so). */
  lemma {:induction false} SortNewestFirstCorrect(s: seq<Article>)
    ensures multiset(SortNewestFirst(s)) == multiset(s)
    ensures |SortNewestFirst(s)| == |s|
    ensures NewestFirst(SortNewestFirst(s))
    ensures forall key :: WithPublished(SortNewestFirst(s), key) == WithPublished(s, key)
    decreases |s|
  {
    if s != [] {
      var init, last := s[..|s| - 1], s[|s| - 1];
      assert s == init + [last];
      SortNewestFirstCorrect(init);
      InsertPermutes(SortNewestFirst(init), last);
      InsertKeepsOrder(SortNewestFirst(init), last);
      forall key ensures WithPublished(SortNewestFirst(s), key) == WithPublished(s, key) {
        InsertIsStable(SortNewestFirst(init), last, key);
        WithPublishedConcat(init, [last], key);
      }
      assert |SortNewestFirst(s)| == |multiset(SortNewestFirst(s))|;
    }
  }
}
