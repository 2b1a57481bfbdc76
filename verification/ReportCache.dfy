/** The client's report cache: manifests and shards by key, guarded by a generation that every
    refresh and every change of session ends. */
module ReportCache {
  import opened Sequences
  import opened Text
  import opened OrderedMap

  datatype Entry = Entry(at: nat, value: string)

  /** A request: what it asks for, and the generation and bearer it was sent with. */
  datatype Sent = Sent(key: string, generation: nat, bearer: Option<string>)

  datatype Asked = Hit(entry: Entry) | Wait(request: nat, startedIn: nat)

  const MANIFEST_CACHE_MS := 60_000
  const MOST_MANIFESTS := 10
  const MOST_SHARDS := 4

  /** The map is full and the key is new, so the oldest entry has to go. */
  predicate PushesOut<T>(m: Entries<T>, key: string, most: nat) {
    most > 0 && |m| >= most && key !in KeysOf(m)
  }

  lemma PutEvicts<T>(m: Entries<T>, key: string, value: T, most: nat)
    requires IsMap(m) && |m| <= most && most > 0
    ensures var r := Evict(Put(m, key, value), most);
            && IsMap(r) && |r| <= most && Get(r, key) == Some(value)
            && (forall k :: k != key ==> Get(r, k) == if PushesOut(m, key, most) && k == m[0].0 then None else Get(m, k))
  {
    var put := Put(m, key, value);
    PutFacts(m, key, value);
    PutKeys(m, key, value);
    EvictFacts(put, most);
    if PushesOut(m, key, most) {
      assert KeysOf(put) == KeysOf(m) + [key] && |put| == |m| + 1;
      assert KeysOf(put)[0] == KeysOf(m)[0] == m[0].0 == put[0].0;
      assert KeysOf(m)[0] in KeysOf(m);
    } else {
      assert |put| <= most;
    }
  }

  /** No request is of a later generation, and those of this one were sent with its bearer. */
  ghost predicate SentWith(sent: map<nat, Sent>, generation: nat, bearer: Option<string>) {
    && (forall r :: r in sent ==> sent[r].generation <= generation)
    && (forall r :: r in sent && sent[r].generation == generation ==> sent[r].bearer == bearer)
  }

  /** The manifest requests on file are the pending ones of this generation. */
  ghost predicate Tracked(sent: map<nat, Sent>, requests: map<string, nat>, pending: set<nat>, generation: nat) {
    && pending <= sent.Keys
    && (forall key :: key in requests ==>
          requests[key] in pending && sent[requests[key]].key == key && sent[requests[key]].generation == generation)
    && (forall r :: r in pending && sent[r].generation == generation ==> sent[r].key in requests && requests[sent[r].key] == r)
  }

  /** In every generation, at most one manifest request is pending for a key. */
  ghost predicate OnePending(sent: map<nat, Sent>, pending: set<nat>) {
    forall r, q :: (r in pending && q in pending && r in sent && q in sent && sent[r].key == sent[q].key
                    && sent[r].generation == sent[q].generation) ==> r == q
  }

  lemma AskTracked(sent: map<nat, Sent>, requests: map<string, nat>, pending: set<nat>, generation: nat, bearer: Option<string>,
                   key: string, promise: nat)
    requires SentWith(sent, generation, bearer) && Tracked(sent, requests, pending, generation) && promise !in sent && key !in requests
    ensures var sent' := sent[promise := Sent(key, generation, bearer)];
            SentWith(sent', generation, bearer) && Tracked(sent', requests[key := promise], pending + {promise}, generation)
  {
  }

  lemma AskOnePending(sent: map<nat, Sent>, requests: map<string, nat>, pending: set<nat>, generation: nat, bearer: Option<string>,
                      key: string, promise: nat)
    requires Tracked(sent, requests, pending, generation) && OnePending(sent, pending) && promise !in sent && key !in requests
    ensures OnePending(sent[promise := Sent(key, generation, bearer)], pending + {promise})
  {
    var sent' := sent[promise := Sent(key, generation, bearer)];
    forall r | r in pending && sent'[r].key == key ensures sent'[r].generation != generation {
      assert sent[r] == sent'[r];
    }
  }

  lemma SettleTracked(sent: map<nat, Sent>, requests: map<string, nat>, pending: set<nat>, generation: nat, key: string, request: nat)
    requires Tracked(sent, requests, pending, generation) && OnePending(sent, pending) && request in sent && sent[request].key == key
    ensures var requests' := if key in requests && requests[key] == request then requests - {key} else requests;
            Tracked(sent, requests', pending - {request}, generation) && OnePending(sent, pending - {request})
  {
  }

  /** The request part of the cache's invariant. */
  ghost predicate Following(sent: map<nat, Sent>, requests: map<string, nat>, pending: set<nat>, generation: nat, bearer: Option<string>) {
    SentWith(sent, generation, bearer) && Tracked(sent, requests, pending, generation) && OnePending(sent, pending)
  }

  lemma AskFollows(sent: map<nat, Sent>, requests: map<string, nat>, pending: set<nat>, generation: nat, bearer: Option<string>,
                   key: string, promise: nat)
    requires Following(sent, requests, pending, generation, bearer) && promise !in sent && key !in requests
    ensures Following(sent[promise := Sent(key, generation, bearer)], requests[key := promise], pending + {promise}, generation, bearer)
  {
    AskTracked(sent, requests, pending, generation, bearer, key, promise);
    AskOnePending(sent, requests, pending, generation, bearer, key, promise);
  }

  lemma OnFile(sent: map<nat, Sent>, requests: map<string, nat>, pending: set<nat>, generation: nat, bearer: Option<string>, key: string)
    requires Following(sent, requests, pending, generation, bearer) && key in requests
    ensures requests[key] in pending && requests[key] in sent && sent[requests[key]] == Sent(key, generation, bearer)
  {
  }

  lemma SettleFollows(sent: map<nat, Sent>, requests: map<string, nat>, pending: set<nat>, generation: nat, bearer: Option<string>,
                      key: string, request: nat)
    requires Following(sent, requests, pending, generation, bearer) && request in sent && sent[request].key == key
    ensures var requests' := if key in requests && requests[key] == request then requests - {key} else requests;
            Following(sent, requests', pending - {request}, generation, bearer)
  {
    SettleTracked(sent, requests, pending, generation, key, request);
  }

  lemma OtherFollows(sent: map<nat, Sent>, requests: map<string, nat>, pending: set<nat>, generation: nat, bearer: Option<string>,
                     promise: nat, key: string)
    requires Following(sent, requests, pending, generation, bearer) && promise !in sent
    ensures Following(sent[promise := Sent(key, generation, bearer)], requests, pending, generation, bearer)
  {
  }

  lemma ClearedFollows(sent: map<nat, Sent>, requests: map<string, nat>, pending: set<nat>, generation: nat, bearer: Option<string>,
                       bearer': Option<string>)
    requires Following(sent, requests, pending, generation, bearer)
    ensures Following(sent, map[], pending, generation + 1, bearer')
  {
  }

  // ----- the cached entries

  /** The request belongs to the current generation, and so to the current session. */
  predicate SentAs(sent: map<nat, Sent>, request: nat, key: string, generation: nat, bearer: Option<string>) {
    request in sent && sent[request] == Sent(key, generation, bearer)
  }

  ghost predicate FiledManifests(manifests: Entries<Entry>, origins: map<string, nat>, sent: map<nat, Sent>, generation: nat, bearer: Option<string>) {
    && IsMap(manifests) && |manifests| <= MOST_MANIFESTS
    && forall key :: Get(manifests, key).Some? ==> key in origins && SentAs(sent, origins[key], key, generation, bearer)
  }

  ghost predicate FiledShards(shards: Entries<nat>, sent: map<nat, Sent>, generation: nat, bearer: Option<string>) {
    && IsMap(shards) && |shards| <= MOST_SHARDS
    && forall key :: Get(shards, key).Some? ==> SentAs(sent, Get(shards, key).value, key, generation, bearer)
  }

  /** The map part of the cache's invariant. */
  ghost predicate Filed(manifests: Entries<Entry>, origins: map<string, nat>, shards: Entries<nat>, sent: map<nat, Sent>, generation: nat,
                        bearer: Option<string>) {
    FiledManifests(manifests, origins, sent, generation, bearer) && FiledShards(shards, sent, generation, bearer)
  }

  /** One more request on record changes nothing for what is cached. */
  lemma FiledGrows(manifests: Entries<Entry>, origins: map<string, nat>, shards: Entries<nat>, sent: map<nat, Sent>, generation: nat,
                   bearer: Option<string>, promise: nat, new_: Sent)
    requires Filed(manifests, origins, shards, sent, generation, bearer) && promise !in sent
    ensures Filed(manifests, origins, shards, sent[promise := new_], generation, bearer)
  {
  }

  lemma NothingFiled(sent: map<nat, Sent>, origins: map<string, nat>, generation: nat, bearer: Option<string>)
    ensures Filed([], origins, [], sent, generation, bearer)
  {
  }

  lemma OfThisSession(sent: map<nat, Sent>, generation: nat, bearer: Option<string>, request: nat)
    requires SentWith(sent, generation, bearer) && request in sent && sent[request].generation == generation
    ensures SentAs(sent, request, sent[request].key, generation, bearer)
  {
  }

  lemma StoreFiled(manifests: Entries<Entry>, origins: map<string, nat>, sent: map<nat, Sent>, generation: nat, bearer: Option<string>,
                   key: string, request: nat, entry: Entry)
    requires FiledManifests(manifests, origins, sent, generation, bearer) && SentAs(sent, request, key, generation, bearer)
    ensures FiledManifests(Evict(Put(manifests, key, entry), MOST_MANIFESTS), origins[key := request], sent, generation, bearer)
  {
    PutEvicts(manifests, key, entry, MOST_MANIFESTS);
  }

  lemma ShardFiled(shards: Entries<nat>, sent: map<nat, Sent>, generation: nat, bearer: Option<string>, key: string, request: nat)
    requires FiledShards(shards, sent, generation, bearer) && SentAs(sent, request, key, generation, bearer)
    ensures FiledShards(Evict(Put(shards, key, request), MOST_SHARDS), sent, generation, bearer)
  {
    PutEvicts(shards, key, request, MOST_SHARDS);
  }

  lemma ShardGone(shards: Entries<nat>, sent: map<nat, Sent>, generation: nat, bearer: Option<string>, key: string)
    requires FiledShards(shards, sent, generation, bearer)
    ensures FiledShards(Delete(shards, key), sent, generation, bearer)
  {
    DeleteFacts(shards, key);
  }

  class Reports {
    var manifests: Entries<Entry>
    var manifestRequests: map<string, nat>
    var shards: Entries<nat>
    var generation: nat
    var bearer: Option<string>

    /** Every request ever sent, the manifest requests not yet settled, and the request behind each cached manifest. */
    ghost var sent: map<nat, Sent>
    ghost var pending: set<nat>
    ghost var origins: map<string, nat>

    ghost predicate Current(key: string, request: nat)
      reads this
    {
      SentAs(sent, request, key, generation, bearer)
    }

    ghost predicate Valid()
      reads this
    {
      && Filed(manifests, origins, shards, sent, generation, bearer)
      && Following(sent, manifestRequests, pending, generation, bearer)
    }

    constructor ()
      ensures Valid() && manifests == [] && shards == [] && sent == map[] && generation == 0
    {
      manifests, manifestRequests, shards, generation, bearer := [], map[], [], 0, None;
      sent, pending, origins := map[], {}, map[];
    }

    method RefreshRepositoryReports()
      requires Valid()
      modifies this
      ensures Valid() && manifests == [] && manifestRequests == map[] && shards == []
      ensures generation == old(generation) + 1 && bearer == old(bearer) && sent == old(sent) && pending == old(pending)
    {
      ClearedFollows(sent, manifestRequests, pending, generation, bearer, bearer);
      NothingFiled(sent, origins, generation + 1, bearer);
      generation := generation + 1;
      manifests, manifestRequests, shards := [], map[], [];
    }

    method SetReportSession(token: Option<string>)
      requires Valid()
      modifies this
      ensures Valid() && bearer == token && sent == old(sent) && pending == old(pending)
      ensures token != old(bearer) ==> generation == old(generation) + 1 && manifests == [] && manifestRequests == map[] && shards == []
      ensures token == old(bearer) ==> generation == old(generation) && manifests == old(manifests) && shards == old(shards)
      ensures token == old(bearer) ==> manifestRequests == old(manifestRequests)
    {
      if token != bearer {
        ClearedFollows(sent, manifestRequests, pending, generation, bearer, token);
        NothingFiled(sent, origins, generation + 1, token);
        RefreshRepositoryReports();
        bearer := token;
      }
    }

    /** Send a request for a manifest that none is pending for. */
    method SendManifest(key: string, promise: nat)
      requires Valid() && promise !in sent && key !in manifestRequests
      modifies this`manifestRequests, this`sent, this`pending
      ensures Valid() && manifestRequests == old(manifestRequests)[key := promise]
      ensures sent == old(sent)[promise := Sent(key, generation, bearer)] && pending == old(pending) + {promise}
    {
      AskFollows(sent, manifestRequests, pending, generation, bearer, key, promise);
      FiledGrows(manifests, origins, shards, sent, generation, bearer, promise, Sent(key, generation, bearer));
      sent := sent[promise := Sent(key, generation, bearer)];
      pending := pending + {promise};
      manifestRequests := manifestRequests[key := promise];
    }

    /** The first half of a read: a manifest that is recent enough, or the one request to wait for. */
    method AskManifest(key: string, now: nat, promise: nat) returns (r: Asked)
      requires Valid() && promise !in sent
      modifies this`manifestRequests, this`sent, this`pending
      ensures Valid()
      ensures r.Hit? <==> Get(manifests, key).Some? && now - Get(manifests, key).value.at <= MANIFEST_CACHE_MS
      ensures r.Hit? ==> Get(manifests, key) == Some(r.entry) && sent == old(sent) && manifestRequests == old(manifestRequests)
      ensures r.Wait? ==> r.startedIn == generation && Current(key, r.request) && key in manifestRequests && manifestRequests[key] == r.request
      ensures r.Wait? && key in old(manifestRequests) ==> r.request == old(manifestRequests)[key] && sent == old(sent)
      ensures r.Wait? && key !in old(manifestRequests) ==> r.request == promise && sent == old(sent)[promise := Sent(key, generation, bearer)]
      ensures r.Wait? ==> manifestRequests == old(manifestRequests)[key := r.request] && pending == old(pending) + {r.request}
    {
      var entry := Get(manifests, key);
      if entry.Some? && now - entry.value.at <= MANIFEST_CACHE_MS {
        return Hit(entry.value);
      }
      if key !in manifestRequests {
        SendManifest(key, promise);
      }
      OnFile(sent, manifestRequests, pending, generation, bearer, key);
      r := Wait(manifestRequests[key], generation);
    }

    /** The second half, once the response is there: cache it, unless its generation is over. */
    method StoreManifest(key: string, request: nat, startedIn: nat, value: string, now: nat) returns (entry: Entry)
      requires Valid() && request in sent && sent[request].key == key && sent[request].generation == startedIn
      modifies this`manifests, this`origins
      ensures Valid() && entry == Entry(now, value)
      ensures startedIn == generation ==> Get(manifests, key) == Some(entry) && origins[key] == request
      ensures startedIn != generation ==> manifests == old(manifests)
      ensures startedIn == generation ==>
                forall k :: k != key ==> Get(manifests, k) == if PushesOut(old(manifests), key, MOST_MANIFESTS) && k == old(manifests)[0].0 then None
                                                              else Get(old(manifests), k)
    {
      entry := Entry(now, value);
      if startedIn == generation {
        PutEvicts(manifests, key, entry, MOST_MANIFESTS);
        OfThisSession(sent, generation, bearer, request);
        StoreFiled(manifests, origins, sent, generation, bearer, key, request, entry);
        manifests := Put(manifests, key, entry);
        origins := origins[key := request];
      }
      manifests := Evict(manifests, MOST_MANIFESTS);
    }

    /** A manifest request settles: it forgets itself, and no other. */
    method SettleManifest(key: string, request: nat)
      requires Valid() && request in sent && sent[request].key == key
      modifies this`manifestRequests, this`pending
      ensures Valid() && pending == old(pending) - {request}
      ensures manifestRequests == if key in old(manifestRequests) && old(manifestRequests)[key] == request then old(manifestRequests) - {key}
                                  else old(manifestRequests)
    {
      SettleFollows(sent, manifestRequests, pending, generation, bearer, key, request);
      if key in manifestRequests && manifestRequests[key] == request {
        manifestRequests := manifestRequests - {key};
      }
      pending := pending - {request};
    }

    /** A shard's request: the cached one, or a new one that may push out the oldest. */
    method AskShard(key: string, promise: nat) returns (r: nat)
      requires Valid() && promise !in sent
      modifies this`shards, this`sent
      ensures Valid() && Get(shards, key) == Some(r) && Current(key, r)
      ensures Get(old(shards), key).Some? ==> Some(r) == Get(old(shards), key) && shards == old(shards) && sent == old(sent)
      ensures Get(old(shards), key).None? ==> r == promise && sent == old(sent)[promise := Sent(key, generation, bearer)]
      ensures Get(old(shards), key).None? ==>
                forall k :: k != key ==> Get(shards, k) == if PushesOut(old(shards), key, MOST_SHARDS) && k == old(shards)[0].0 then None
                                                           else Get(old(shards), k)
    {
      var cached := Get(shards, key);
      if cached.Some? { return cached.value; }
      OtherFollows(sent, manifestRequests, pending, generation, bearer, promise, key);
      FiledGrows(manifests, origins, shards, sent, generation, bearer, promise, Sent(key, generation, bearer));
      sent := sent[promise := Sent(key, generation, bearer)];
      PutEvicts(shards, key, promise, MOST_SHARDS);
      ShardFiled(shards, sent, generation, bearer, key, promise);
      shards := Evict(Put(shards, key, promise), MOST_SHARDS);
      r := promise;
    }

    /** A shard's request fails. The entry under its key goes, whichever request it holds: a newer
        request is forgotten exactly when the key has been asked for again since. */
    method FailShard(key: string, request: nat)
      requires Valid() && request in sent && sent[request].key == key
      modifies this`shards
      ensures Valid() && Get(shards, key).None?
      ensures forall k :: k != key ==> Get(shards, k) == Get(old(shards), k)
      ensures (exists r, k :: Get(old(shards), k) == Some(r) && r != request && Get(shards, k) != Some(r))
              <==> (Get(old(shards), key).Some? && Get(old(shards), key) != Some(request))
    {
      DeleteFacts(shards, key);
      ShardGone(shards, sent, generation, bearer, key);
      ghost var before := shards;
      shards := Delete(shards, key);
      ghost var held := Get(before, key);
      if held.Some? && held.value != request {
        assert Get(before, key) == Some(held.value) && Get(shards, key) != Some(held.value);
      }
    }
  }

  /** The deletion of a failed shard is not guarded by the generation: the failure of a request from
      before a refresh forgets the request sent after it, so the next read asks a third time. */
  method FailureForgetsNewerShard(c: Reports, key: string, first: nat, second: nat, third: nat) returns (r: nat)
    requires c.Valid() && first !in c.sent && second !in c.sent && third !in c.sent && first != second && second != third && third != first
    requires Get(c.shards, key).None?
    modifies c
    ensures c.Valid() && r == third
    ensures second in c.sent && c.sent[second] == Sent(key, c.generation, c.bearer)
  {
    var a := c.AskShard(key, first);
    assert a == first && c.sent[first].key == key;
    c.RefreshRepositoryReports();
    var b := c.AskShard(key, second);
    assert b == second && c.sent[first].key == key;
    c.FailShard(key, first);
    r := c.AskShard(key, third);
  }
}
