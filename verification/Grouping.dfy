/** Grouping a sequence by a key: a dictionary of lists, its keys in insertion order. */
module Grouping {
  import opened Sequences

  ghost predicate Occupied<T, K(!new)>(key: T -> K, s: seq<T>, k: K) {
    exists x :: x in s && key(x) == k
  }

  function HasKey<T, K(==,!new)>(key: T -> K, k: K): T -> bool {
    x => key(x) == k
  }

  function Bucket<T, K(==,!new)>(key: T -> K, s: seq<T>, k: K): seq<T> {
    Filter(HasKey(key, k), s)
  }

  function Keys<T, K(==,!new)>(key: T -> K, s: seq<T>): seq<K> {
    Dedupe(Map(key, s))
  }

  lemma KeyOccupied<T, K(!new)>(key: T -> K, s: seq<T>, k: K)
    ensures k in Map(key, s) <==> Occupied(key, s, k)
  {
    var keys := Map(key, s);
    if k in keys {
      var i :| 0 <= i < |keys| && keys[i] == k;
      assert s[i] in s;
    }
    if Occupied(key, s, k) {
      var x :| x in s && key(x) == k;
      var i :| 0 <= i < |s| && s[i] == x;
      assert keys[i] == k;
    }
  }

  lemma BucketMembers<T, K(!new)>(key: T -> K, s: seq<T>, k: K)
    ensures forall x :: x in Bucket(key, s, k) <==> x in s && key(x) == k
    ensures Bucket(key, s, k) != [] <==> Occupied(key, s, k)
  {
    FilterMembers(HasKey(key, k), s);
    FilterEmpty(HasKey(key, k), s);
    if Occupied(key, s, k) {
      var x :| x in s && key(x) == k;
      var i :| 0 <= i < |s| && s[i] == x;
      assert HasKey(key, k)(s[i]);
    }
    if Bucket(key, s, k) != [] {
      var i :| 0 <= i < |s| && HasKey(key, k)(s[i]);
      assert s[i] in s;
    }
  }

  lemma KeysMembers<T, K(!new)>(key: T -> K, s: seq<T>)
    ensures NoDup(Keys(key, s))
    ensures forall k :: k in Keys(key, s) <==> Occupied(key, s, k)
  {
    DedupeMembers(Map(key, s));
    forall k ensures k in Keys(key, s) <==> Occupied(key, s, k) {
      KeyOccupied(key, s, k);
    }
  }

  /** What the dictionary holds after `s`. */
  ghost predicate Grouped<T, K(!new)>(key: T -> K, s: seq<T>, keys: seq<K>, groups: map<K, seq<T>>) {
    && keys == Keys(key, s)
    && (forall k :: k in groups <==> k in keys)
    && (forall k :: k in groups ==> groups[k] == Bucket(key, s, k))
  }

  lemma BucketAppend<T, K(!new)>(key: T -> K, s: seq<T>, x: T, k: K)
    ensures Bucket(key, s + [x], k) == Bucket(key, s, k) + if key(x) == k then [x] else []
  {
    FilterAppend(HasKey(key, k), s, x);
  }

  lemma KeysSnoc<T, K(!new)>(key: T -> K, s: seq<T>, x: T)
    ensures Keys(key, s + [x]) == if key(x) in Keys(key, s) then Keys(key, s) else Keys(key, s) + [key(x)]
  {
    assert Map(key, s + [x]) == Map(key, s) + [key(x)];
    DedupeAppend(Map(key, s), key(x));
  }

  lemma GroupStep<T, K(!new)>(key: T -> K, s: seq<T>, x: T, keys: seq<K>, groups: map<K, seq<T>>)
    requires Grouped(key, s, keys, groups)
    ensures if key(x) in groups then Grouped(key, s + [x], keys, groups[key(x) := groups[key(x)] + [x]])
            else Grouped(key, s + [x], keys + [key(x)], groups[key(x) := [x]])
  {
    KeysSnoc(key, s, x);
    var next := groups[key(x) := (if key(x) in groups then groups[key(x)] else []) + [x]];
    if key(x) !in groups {
      KeysMembers(key, s);
      BucketMembers(key, s, key(x));
      assert [] + [x] == [x];
    }
    forall k | k in next ensures next[k] == Bucket(key, s + [x], k) {
      BucketAppend(key, s, x, k);
      if k != key(x) { assert Bucket(key, s, k) + [] == Bucket(key, s, k); }
    }
  }

  method GroupBy<T, K(==,!new)>(key: T -> K, s: seq<T>) returns (keys: seq<K>, groups: map<K, seq<T>>)
    ensures Grouped(key, s, keys, groups)
  {
    keys, groups := [], map[];
    for i := 0 to |s|
      invariant Grouped(key, s[..i], keys, groups)
    {
      TakeNext(s, i);
      GroupStep(key, s[..i], s[i], keys, groups);
      var k := key(s[i]);
      if k in groups {
        groups := groups[k := groups[k] + [s[i]]];
      } else {
        keys := keys + [k];
        groups := groups[k := [s[i]]];
      }
    }
    TakeAll(s);
  }

  /** A permutation of the input permutes the keys and every bucket. */
  lemma GroupsPermute<T, K(!new)>(key: T -> K, s: seq<T>, t: seq<T>)
    requires multiset(s) == multiset(t)
    ensures multiset(Keys(key, s)) == multiset(Keys(key, t))
    ensures forall k :: multiset(Bucket(key, s, k)) == multiset(Bucket(key, t, k))
  {
    PermutationMembers(s, t);
    KeysMembers(key, s);
    KeysMembers(key, t);
    forall k ensures k in Keys(key, s) <==> k in Keys(key, t) {
      assert Occupied(key, s, k) <==> Occupied(key, t, k);
    }
    SameMembersSameMultiset(Keys(key, s), Keys(key, t));
    forall k ensures multiset(Bucket(key, s, k)) == multiset(Bucket(key, t, k)) {
      FilterPermutation(HasKey(key, k), s, t);
    }
  }

  /** The buckets of all keys, one after another, hold every element exactly once. */
  lemma {:induction false} BucketsConserve<T, K(!new)>(key: T -> K, s: seq<T>, keys: seq<K>, x: T)
    requires NoDup(keys)
    ensures multiset(Flatten(Map(k => Bucket(key, s, k), keys)))[x] == if key(x) in keys then multiset(s)[x] else 0
  {
    var buckets := Map(k => Bucket(key, s, k), keys);
    if keys != [] {
      var front, last := keys[..|keys| - 1], keys[|keys| - 1];
      BucketsConserve(key, s, front, x);
      assert Map(k => Bucket(key, s, k), front) == buckets[..|keys| - 1];
      FilterCounts(HasKey(key, last), s, x);
      assert key(x) in keys <==> key(x) in front || key(x) == last;
    }
  }

  // ----- the groups one after another

  function BucketOf<T, K(==,!new)>(key: T -> K, s: seq<T>): K -> seq<T> {
    k => Bucket(key, s, k)
  }

  function Buckets<T, K(==,!new)>(key: T -> K, s: seq<T>): seq<seq<T>> {
    Map(BucketOf(key, s), Keys(key, s))
  }

  function Regroup<T, K(==,!new)>(key: T -> K, s: seq<T>): seq<T> {
    Flatten(Buckets(key, s))
  }

  lemma RegroupCounts<T, K(!new)>(key: T -> K, s: seq<T>, x: T)
    ensures multiset(Regroup(key, s))[x] == multiset(s)[x]
  {
    KeysMembers(key, s);
    BucketsConserve(key, s, Keys(key, s), x);
    assert Map(k => Bucket(key, s, k), Keys(key, s)) == Buckets(key, s);
    if x in multiset(s) {
      assert Occupied(key, s, key(x));
    }
  }

  lemma RegroupPermutes<T, K(!new)>(key: T -> K, s: seq<T>)
    ensures multiset(Regroup(key, s)) == multiset(s)
  {
    forall x ensures multiset(Regroup(key, s))[x] == multiset(s)[x] {
      RegroupCounts(key, s, x);
    }
    SameCounts(multiset(Regroup(key, s)), multiset(s));
  }

  lemma InBucket<T, K(!new)>(key: T -> K, s: seq<T>, k: K, x: T)
    requires x in Bucket(key, s, k)
    ensures x in s && key(x) == k
  {
    FilterMembers(HasKey(key, k), s);
    assert HasKey(key, k)(x);
  }

  lemma BucketOfBucket<T, K(!new)>(key: T -> K, s: seq<T>, k: K, other: K)
    ensures Bucket(key, Bucket(key, s, other), k) == if k == other then Bucket(key, s, k) else []
  {
    var bucket := Bucket(key, s, other);
    BucketMembers(key, s, other);
    forall x | x in bucket ensures HasKey(key, k)(x) == (k == other) {
      InBucket(key, s, other, x);
    }
    if k == other {
      FilterEvery(HasKey(key, k), Bucket(key, s, k));
    } else {
      FilterNone(HasKey(key, k), Bucket(key, s, other));
    }
  }

  /** A group is found again, in one piece. */
  lemma {:induction false} BucketOfFlat<T, K(!new)>(key: T -> K, s: seq<T>, keys: seq<K>, k: K)
    requires NoDup(keys)
    ensures Bucket(key, Flatten(Map(BucketOf(key, s), keys)), k) == if k in keys then Bucket(key, s, k) else []
  {
    if keys != [] {
      var front, last := keys[..|keys| - 1], keys[|keys| - 1];
      assert keys == front + [last];
      BucketOfFlat(key, s, front, k);
      MapAppend(BucketOf(key, s), front, last);
      FlattenAppend(Map(BucketOf(key, s), front), Bucket(key, s, last));
      FilterConcat(HasKey(key, k), Flatten(Map(BucketOf(key, s), front)), Bucket(key, s, last));
      BucketOfBucket(key, s, k, last);
    }
  }

  lemma {:induction false} DedupeSame<T>(s: seq<T>, t: seq<T>, x: T)
    requires t != [] && (forall y :: y in t ==> y == x)
    ensures Dedupe(s + t) == if x in s then Dedupe(s) else Dedupe(s) + [x]
  {
    var front := t[..|t| - 1];
    assert t[|t| - 1] in t;
    assert forall y :: y in front ==> y in t;
    assert s + t == (s + front) + [x];
    DedupeAppend(s + front, x);
    DedupeMembers(s);
    if front == [] {
      assert s + front == s;
    } else {
      DedupeSame(s, front, x);
    }
  }

  lemma KeysAppendGroup<T, K(!new)>(key: T -> K, s: seq<T>, t: seq<T>, k: K)
    requires t != [] && (forall x :: x in t ==> key(x) == k) && k !in Keys(key, s)
    ensures Keys(key, s + t) == Keys(key, s) + [k]
  {
    assert Map(key, s + t) == Map(key, s) + Map(key, t);
    forall y | y in Map(key, t) ensures y == k {
      KeyOccupied(key, t, y);
    }
    DedupeMembers(Map(key, s));
    DedupeSame(Map(key, s), Map(key, t), k);
  }

  lemma {:induction false} KeysOfFlat<T, K(!new)>(key: T -> K, s: seq<T>, keys: seq<K>)
    requires NoDup(keys) && forall k :: k in keys ==> Bucket(key, s, k) != []
    ensures Keys(key, Flatten(Map(BucketOf(key, s), keys))) == keys
  {
    if keys != [] {
      var front, last := keys[..|keys| - 1], keys[|keys| - 1];
      assert keys == front + [last];
      KeysOfFlat(key, s, front);
      MapAppend(BucketOf(key, s), front, last);
      FlattenAppend(Map(BucketOf(key, s), front), Bucket(key, s, last));
      var group := Bucket(key, s, last);
      BucketMembers(key, s, last);
      assert last in keys;
      forall x | x in group ensures key(x) == last {
        InBucket(key, s, last, x);
      }
      KeysAppendGroup(key, Flatten(Map(BucketOf(key, s), front)), Bucket(key, s, last), last);
    }
  }

  /** Grouping again changes nothing. */
  lemma RegroupIdempotent<T, K(!new)>(key: T -> K, s: seq<T>)
    ensures Buckets(key, Regroup(key, s)) == Buckets(key, s)
    ensures Regroup(key, Regroup(key, s)) == Regroup(key, s)
  {
    var keys, flat := Keys(key, s), Regroup(key, s);
    KeysMembers(key, s);
    forall k | k in keys ensures Bucket(key, s, k) != [] {
      BucketMembers(key, s, k);
    }
    KeysOfFlat(key, s, keys);
    forall i | 0 <= i < |keys| ensures Buckets(key, flat)[i] == Buckets(key, s)[i] {
      BucketOfFlat(key, s, keys, keys[i]);
    }
  }
}
