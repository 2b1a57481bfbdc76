/** Documents cut into pages of a fixed size. */
module Paging {
  import opened Sequences

  function PageCount(n: nat, size: nat): nat
    requires size > 0
  {
    (n + size - 1) / size
  }

  function Page<T>(s: seq<T>, size: nat, p: nat): (r: seq<T>)
    requires size > 0 && p < PageCount(|s|, size)
    ensures r != [] && |r| <= size
  {
    PageStart(|s|, size, p);
    s[p * size..if (p + 1) * size <= |s| then (p + 1) * size else |s|]
  }

  lemma PageStart(n: nat, size: nat, p: nat)
    requires size > 0 && p < PageCount(n, size)
    ensures 0 <= p * size < n && (p + 1) * size == p * size + size
  {
    assert (p + 1) * size <= PageCount(n, size) * size;
    assert PageCount(n, size) * size <= n + size - 1;
  }

  lemma MulMonotone(a: nat, b: nat, n: nat)
    ensures a <= b ==> a * n <= b * n
  {
  }

  /** The page that holds element `i`. */
  lemma PageOf(n: nat, size: nat, i: nat) returns (p: nat)
    requires size > 0 && i < n
    ensures p == i / size && p < PageCount(n, size) && p * size <= i < (p + 1) * size
  {
    p := i / size;
    assert i == (i / size) * size + i % size;
    assert (i / size) * size + size == (i / size + 1) * size;
    var c := PageCount(n, size);
    assert n + size - 1 == c * size + (n + size - 1) % size;
    MulMonotone(c, i / size, size);
  }

  lemma OnPage<T>(s: seq<T>, size: nat, p: nat, i: nat)
    requires size > 0 && p < PageCount(|s|, size) && i < |s| && p * size <= i < (p + 1) * size
    ensures s[i] in Page(s, size, p)
  {
    var start, end := p * size, if (p + 1) * size <= |s| then (p + 1) * size else |s|;
    assert s[start..end][i - start] == s[i];
  }

  lemma ElementOnPage<T>(s: seq<T>, size: nat, i: nat)
    requires size > 0 && i < |s|
    ensures i / size < PageCount(|s|, size)
    ensures s[i] in Page(s, size, i / size)
  {
    var p := PageOf(|s|, size, i);
    OnPage(s, size, p, i);
  }

  function PagesUpTo<T>(s: seq<T>, size: nat, n: nat): (r: seq<seq<T>>)
    requires size > 0 && n <= PageCount(|s|, size)
    ensures |r| == n
  {
    seq(n, p requires 0 <= p < n => Page(s, size, p))
  }

  /** The first `k` elements, or all if there are fewer. */
  function Start<T>(s: seq<T>, k: nat): seq<T> {
    if k <= |s| then s[..k] else s
  }

  /** The elements from `start` on, `size` of them or what is left. */
  function Chunk<T>(s: seq<T>, start: nat, size: nat): seq<T>
    requires start <= |s|
  {
    if start + size <= |s| then s[start..start + size] else s[start..]
  }

  lemma StartMore<T>(s: seq<T>, start: nat, size: nat)
    requires start <= |s|
    ensures Start(s, start) + Chunk(s, start, size) == Start(s, start + size)
  {
  }

  ghost predicate Chunked<T>(s: seq<T>, size: nat, pages: seq<seq<T>>) {
    forall p :: 0 <= p < |pages| ==> Offset(p, size) < |s| && pages[p] == Chunk(s, Offset(p, size), size)
  }

  lemma {:induction false} PagesConcatenate<T>(s: seq<T>, size: nat, pages: seq<seq<T>>)
    requires Chunked(s, size, pages)
    ensures Flatten(pages) == Start(s, Offset(|pages|, size))
  {
    if pages != [] {
      var n := |pages| - 1;
      PagesConcatenate(s, size, pages[..n]);
      StartMore(s, Offset(n, size), size);
    }
  }

  /** Where page `p` starts: `p * size`, one page after another. */
  function Offset(p: nat, size: nat): nat {
    if p == 0 then 0 else Offset(p - 1, size) + size
  }

  lemma {:induction false} OffsetIsProduct(p: nat, size: nat)
    ensures Offset(p, size) == p * size
  {
    if p == 0 {
      assert 0 * size == 0;
    } else {
      OffsetIsProduct(p - 1, size);
      assert (p - 1) * size + size == p * size;
    }
  }

  lemma PageIs<T>(s: seq<T>, size: nat, p: nat)
    requires size > 0 && p < PageCount(|s|, size)
    ensures Offset(p, size) < |s| && Page(s, size, p) == Chunk(s, Offset(p, size), size)
  {
    OffsetIsProduct(p, size);
    PageStart(|s|, size, p);
  }

  /** All pages, one after another, are the whole. */
  lemma PagesAreAll<T>(s: seq<T>, size: nat)
    requires size > 0
    ensures Flatten(PagesUpTo(s, size, PageCount(|s|, size))) == s
  {
    var c := PageCount(|s|, size);
    var pages := PagesUpTo(s, size, c);
    forall p | 0 <= p < c ensures Offset(p, size) < |s| && pages[p] == Chunk(s, Offset(p, size), size) {
      PageIs(s, size, p);
    }
    PagesConcatenate(s, size, pages);
    OffsetIsProduct(c, size);
    CountCovers(|s|, size);
  }

  lemma CountCovers(n: nat, size: nat)
    requires size > 0
    ensures PageCount(n, size) * size >= n
  {
    var c := PageCount(n, size);
    assert n + size - 1 == c * size + (n + size - 1) % size;
  }

  /** A permutation stays one when the last element is taken out on both sides. */
  lemma RemoveLast<K>(s: seq<K>, t: seq<K>, i: nat)
    requires multiset(s) == multiset(t) && s != [] && i < |t| && t[i] == s[|s| - 1]
    ensures multiset(t[..i] + t[i + 1..]) == multiset(s[..|s| - 1])
  {
    var front, last := s[..|s| - 1], s[|s| - 1];
    assert s == front + [last] && t == t[..i] + [last] + t[i + 1..];
    var a, b := multiset(t[..i] + t[i + 1..]), multiset(front);
    forall x ensures a[x] == b[x] {
      assert multiset(s)[x] == b[x] + multiset{last}[x];
      assert multiset(t)[x] == a[x] + multiset{last}[x];
    }
    SameCounts(a, b);
  }

  lemma MapSplit<K, T>(f: K -> seq<T>, a: seq<K>, b: seq<K>)
    ensures Map(f, a + b) == Map(f, a) + Map(f, b)
    ensures Flatten(Map(f, a + b)) == Flatten(Map(f, a)) + Flatten(Map(f, b))
  {
    FlattenJoin(Map(f, a), Map(f, b));
  }

  lemma MapOne<K, T>(f: K -> seq<T>, k: K)
    ensures Flatten(Map(f, [k])) == f(k)
  {
    assert Map(f, [k]) == [f(k)];
    FlattenAppend([], f(k));
  }

  /** Taking one key out takes its list out. */
  lemma TakeOut<K, T>(f: K -> seq<T>, t: seq<K>, i: nat)
    requires i < |t|
    ensures multiset(Flatten(Map(f, t))) == multiset(Flatten(Map(f, t[..i] + t[i + 1..]))) + multiset(f(t[i]))
  {
    assert t == t[..i] + [t[i]] + t[i + 1..];
    MapSplit(f, t[..i] + [t[i]], t[i + 1..]);
    MapSplit(f, t[..i], [t[i]]);
    MapSplit(f, t[..i], t[i + 1..]);
    MapOne(f, t[i]);
  }

  /** Reading the same pages in another order yields the same elements. */
  lemma {:induction false} FlattenPermutes<K, T>(f: K -> seq<T>, s: seq<K>, t: seq<K>)
    requires multiset(s) == multiset(t)
    ensures multiset(Flatten(Map(f, s))) == multiset(Flatten(Map(f, t)))
  {
    PermutationMembers(s, t);
    if s != [] {
      var n := |s| - 1;
      assert s[n] in t;
      var i :| 0 <= i < |t| && t[i] == s[n];
      RemoveLast(s, t, i);
      FlattenPermutes(f, s[..n], t[..i] + t[i + 1..]);
      TakeOut(f, t, i);
      TakeOut(f, s, n);
      assert s[..n] + s[n + 1..] == s[..n];
    }
  }

  /** A reader that returns every page returns, in page order, the whole. */
  lemma ReadInOrder<T>(f: nat -> seq<T>, s: seq<T>, size: nat)
    requires size > 0
    requires forall p: nat :: p < PageCount(|s|, size) ==> f(p) == Page(s, size, p)
    ensures Flatten(Map(f, Upto(PageCount(|s|, size)))) == s
  {
    var n := PageCount(|s|, size);
    assert Map(f, Upto(n)) == PagesUpTo(s, size, n);
    PagesAreAll(s, size);
  }

  /** Read in any order, the pages hold the same elements. */
  lemma ReadInAnyOrder<T>(f: nat -> seq<T>, s: seq<T>, size: nat, listing: seq<nat>)
    requires size > 0
    requires forall p: nat :: p < PageCount(|s|, size) ==> f(p) == Page(s, size, p)
    requires NoDup(listing) && forall p: nat :: p in listing <==> p < PageCount(|s|, size)
    ensures multiset(Flatten(Map(f, listing))) == multiset(s)
  {
    var n := PageCount(|s|, size);
    SameMembersSameMultiset(Upto(n), listing);
    FlattenPermutes(f, Upto(n), listing);
    ReadInOrder(f, s, size);
  }
}
