/** A JavaScript Map: keys in the order of their insertion, overwriting in place. */
module OrderedMap {
  import opened Sequences
  import opened Text

  type Entries<T> = seq<(string, T)>

  function KeysOf<T>(m: Entries<T>): (r: seq<string>)
    ensures |r| == |m| && forall i :: 0 <= i < |m| ==> r[i] == m[i].0
  {
    seq(|m|, i requires 0 <= i < |m| => m[i].0)
  }

  /** No key twice. */
  ghost predicate IsMap<T>(m: Entries<T>) {
    NoDup(KeysOf(m))
  }

  function Get<T>(m: Entries<T>, key: string): Option<T> {
    if m == [] then None else if m[0].0 == key then Some(m[0].1) else Get(m[1..], key)
  }

  function Put<T>(m: Entries<T>, key: string, value: T): Entries<T> {
    if m == [] then [(key, value)] else if m[0].0 == key then [(key, value)] + m[1..] else [m[0]] + Put(m[1..], key, value)
  }

  function Delete<T>(m: Entries<T>, key: string): Entries<T> {
    if m == [] then [] else if m[0].0 == key then m[1..] else [m[0]] + Delete(m[1..], key)
  }

  lemma {:induction false} GetExact<T>(m: Entries<T>, key: string)
    ensures Get(m, key).Some? <==> key in KeysOf(m)
  {
    if m != [] {
      GetExact(m[1..], key);
      assert KeysOf(m) == [m[0].0] + KeysOf(m[1..]);
    }
  }

  lemma KeysCons<T>(m: Entries<T>)
    requires m != []
    ensures KeysOf(m) == [m[0].0] + KeysOf(m[1..])
  {
  }

  lemma {:induction false} PutKeys<T>(m: Entries<T>, key: string, value: T)
    ensures KeysOf(Put(m, key, value)) == if key in KeysOf(m) then KeysOf(m) else KeysOf(m) + [key]
  {
    if m != [] {
      KeysCons(m);
      if m[0].0 != key {
        PutKeys(m[1..], key, value);
        KeysCons(Put(m, key, value));
        assert Put(m, key, value)[1..] == Put(m[1..], key, value);
      }
    }
  }

  lemma {:induction false} PutGet<T>(m: Entries<T>, key: string, value: T, k: string)
    ensures Get(Put(m, key, value), k) == if k == key then Some(value) else Get(m, k)
  {
    if m != [] && m[0].0 != key {
      PutGet(m[1..], key, value, k);
      assert Put(m, key, value)[1..] == Put(m[1..], key, value);
    }
  }

  lemma PutFacts<T>(m: Entries<T>, key: string, value: T)
    requires IsMap(m)
    ensures var r := Put(m, key, value);
            && IsMap(r) && |r| <= |m| + 1
            && (forall k :: Get(r, k) == if k == key then Some(value) else Get(m, k))
  {
    PutKeys(m, key, value);
    if key !in KeysOf(m) {
      NoDupAppend(KeysOf(m), [key]);
    }
    forall k ensures Get(Put(m, key, value), k) == if k == key then Some(value) else Get(m, k) { PutGet(m, key, value, k); }
  }

  lemma {:induction false} DeleteKeys<T>(m: Entries<T>, key: string)
    requires IsMap(m)
    ensures IsMap(Delete(m, key)) && |Delete(m, key)| <= |m| && forall k :: k in KeysOf(Delete(m, key)) ==> k in KeysOf(m)
  {
    if m != [] {
      KeysCons(m);
      NoDupParts([m[0].0], KeysOf(m[1..]));
      if m[0].0 != key {
        DeleteKeys(m[1..], key);
        assert Delete(m, key)[1..] == Delete(m[1..], key);
        KeysCons(Delete(m, key));
        NoDupAppend([m[0].0], KeysOf(Delete(m[1..], key)));
      }
    }
  }

  lemma {:induction false} DeleteGet<T>(m: Entries<T>, key: string, k: string)
    requires IsMap(m)
    ensures Get(Delete(m, key), k) == if k == key then None else Get(m, k)
  {
    if m != [] {
      KeysCons(m);
      NoDupParts([m[0].0], KeysOf(m[1..]));
      GetExact(m[1..], m[0].0);
      if m[0].0 != key {
        DeleteGet(m[1..], key, k);
        assert Delete(m, key)[1..] == Delete(m[1..], key);
      }
    }
  }

  lemma DeleteFacts<T>(m: Entries<T>, key: string)
    requires IsMap(m)
    ensures var r := Delete(m, key);
            IsMap(r) && |r| <= |m| && (forall k :: Get(r, k) == if k == key then None else Get(m, k))
  {
    DeleteKeys(m, key);
    forall k ensures Get(Delete(m, key), k) == if k == key then None else Get(m, k) { DeleteGet(m, key, k); }
  }

  /** `map.delete(map.keys().next().value)` when there are too many. */
  function Evict<T>(m: Entries<T>, most: nat): Entries<T> {
    if |m| > most then m[1..] else m
  }

  lemma EvictFacts<T>(m: Entries<T>, most: nat)
    requires IsMap(m)
    ensures var r := Evict(m, most);
            && IsMap(r) && |r| == (if |m| > most then |m| - 1 else |m|)
            && (forall k :: Get(r, k).Some? ==> Get(r, k) == Get(m, k))
            && (forall k :: Get(r, k) == if |m| > most && k == m[0].0 then None else Get(m, k))
  {
    if |m| > most {
      assert KeysOf(m) == [m[0].0] + KeysOf(m[1..]);
      NoDupParts([m[0].0], KeysOf(m[1..]));
      GetExact(m[1..], m[0].0);
    }
  }
}
