/** What canonical evidence promises: it does not depend on the order of its input, keeps
    every raw finding exactly once, and gives distinct identities. */
module CanonicalTheorems {
  import opened Sequences
  import opened Ordering
  import opened Grouping
  import opened Text
  import opened Identity
  import opened Canonical

  lemma IdMeans(observations: seq<Observation>, id: string)
    ensures id in Ids(observations) <==> exists o :: o in observations && o.observationId == id
  {
    if id in Ids(observations) {
      var i :| 0 <= i < |observations| && Ids(observations)[i] == id;
      assert observations[i] in observations;
    }
    if o :| o in observations && o.observationId == id {
      var i :| 0 <= i < |observations| && observations[i] == o;
      assert Ids(observations)[i] == id;
    }
  }

  // ----- order independence

  lemma RowOrderTotal(env: Env)
    requires forall f, g :: env.json(f) == env.json(g) ==> f == g
    ensures TotalOrder(RowOrder(env))
  {
    StrTotalOrder();
    var le := RowOrder(env);
    forall a, b ensures le(a, b) || le(b, a) { RowLeTotal(env, a, b); }
    forall a, b | le(a, b) && le(b, a) ensures a == b { RowLeAntisymmetric(env, a, b); }
    forall a, b, c | le(a, b) && le(b, c) ensures le(a, c) { RowLeTransitive(env, a, b, c); }
  }

  lemma RowLeTotal(env: Env, a: RawFinding, b: RawFinding)
    ensures RowLe(env, a, b) || RowLe(env, b, a)
  {
    StrTotal(PyStr(a.sourceTool), PyStr(b.sourceTool));
    StrTotal(PyStr(a.ruleId), PyStr(b.ruleId));
    StrTotal(env.json(a), env.json(b));
  }

  lemma RowLeAntisymmetric(env: Env, a: RawFinding, b: RawFinding)
    requires forall f, g :: env.json(f) == env.json(g) ==> f == g
    requires RowLe(env, a, b) && RowLe(env, b, a)
    ensures a == b
  {
    if StrLe(PyStr(a.sourceTool), PyStr(b.sourceTool)) && StrLe(PyStr(b.sourceTool), PyStr(a.sourceTool)) {
      StrAntisymmetric(PyStr(a.sourceTool), PyStr(b.sourceTool));
    }
    if StrLe(PyStr(a.ruleId), PyStr(b.ruleId)) && StrLe(PyStr(b.ruleId), PyStr(a.ruleId)) {
      StrAntisymmetric(PyStr(a.ruleId), PyStr(b.ruleId));
    }
    if StrLe(env.json(a), env.json(b)) && StrLe(env.json(b), env.json(a)) {
      StrAntisymmetric(env.json(a), env.json(b));
    }
  }

  lemma StrChain(a: string, b: string, c: string)
    requires StrLe(a, b) && StrLe(b, c)
    ensures StrLe(a, c) && (a == c ==> a == b)
  {
    StrTransitive(a, b, c);
    if a == c {
      StrAntisymmetric(a, b);
    }
  }

  lemma RowLeTransitive(env: Env, a: RawFinding, b: RawFinding, c: RawFinding)
    requires RowLe(env, a, b) && RowLe(env, b, c)
    ensures RowLe(env, a, c)
  {
    if SeverityRank(a.severity) == SeverityRank(b.severity) == SeverityRank(c.severity) {
      var (x, y, z) := (PyStr(a.sourceTool), PyStr(b.sourceTool), PyStr(c.sourceTool));
      if x != y && y != z {
        StrChain(x, y, z);
      } else if x == y == z {
        var (u, v, w) := (PyStr(a.ruleId), PyStr(b.ruleId), PyStr(c.ruleId));
        if u != v && v != w {
          StrChain(u, v, w);
        } else if u == v == w {
          StrChain(env.json(a), env.json(b), env.json(c));
        }
      }
    }
  }

  lemma {:induction false} SameGroupsSameOutput(env: Env, ctx: Context, a: seq<RawFinding>, b: seq<RawFinding>, keys: seq<Key>)
    requires forall k :: Members(env, a, k) == Members(env, b, k)
    requires forall k :: k in keys ==> Members(env, a, k) != []
    ensures Flat(env, ctx, a, keys) == Flat(env, ctx, b, keys)
    ensures Findings(env, ctx, a, keys) == Findings(env, ctx, b, keys)
  {
    if keys != [] {
      SameGroupsSameOutput(env, ctx, a, b, keys[..|keys| - 1]);
    }
  }

  /** `canonicalize` returns the same findings and observations, ids included, for
      every permutation of the raw findings. */
  lemma OrderIndependent(env: Env, ctx: Context, a: seq<RawFinding>, b: seq<RawFinding>)
    requires forall f, g :: env.json(f) == env.json(g) ==> f == g
    requires multiset(a) == multiset(b)
    ensures CanonicalEvidence(env, ctx, a) == CanonicalEvidence(env, ctx, b)
  {
    GroupsPermute(KeyOf(env), a, b);
    PairTotalOrder();
    SortPermutation(PairLe, Keys(KeyOf(env), a), Keys(KeyOf(env), b));
    RowOrderTotal(env);
    forall k ensures Members(env, a, k) == Members(env, b, k) {
      SortPermutation(RowOrder(env), Bucket(KeyOf(env), a, k), Bucket(KeyOf(env), b, k));
    }
    GroupsNonempty(env, a);
    SameGroupsSameOutput(env, ctx, a, b, SortedKeys(env, a));
  }

  // ----- conservation

  function Raws(ts: seq<Tagged>): (r: seq<RawFinding>)
    ensures |r| == |ts|
  {
    seq(|ts|, i requires 0 <= i < |ts| => ts[i].raw)
  }

  function Sources(observations: seq<Observation>): (r: seq<RawFinding>)
    ensures |r| == |observations|
  {
    seq(|observations|, i requires 0 <= i < |observations| => observations[i].source)
  }

  lemma {:induction false} NumberAt(env: Env, ctx: Context, ts: seq<Tagged>, i: nat)
    requires i < |ts|
    ensures Number(env, ctx, ts)[i]
         == MakeObservation(env, ctx, ts[i], Occurrences(env, ctx, ts[..i], BaseId(env, ctx, ts[i])))
  {
    if i < |ts| - 1 {
      NumberAt(env, ctx, ts[..|ts| - 1], i);
      assert ts[..|ts| - 1][..i] == ts[..i];
    }
  }

  lemma RawsAppend(ts: seq<Tagged>, sid: string, members: seq<RawFinding>)
    ensures Raws(ts + Tag(sid, members)) == Raws(ts) + members
  {
  }

  lemma MemberCounts(env: Env, raws: seq<RawFinding>, key: Key, x: RawFinding)
    ensures multiset(Members(env, raws, key))[x] == if GroupKey(env, x) == key then multiset(raws)[x] else 0
  {
    FilterCounts(HasKey(KeyOf(env), key), raws, x);
  }

  lemma {:induction false} FlatCounts(env: Env, ctx: Context, raws: seq<RawFinding>, keys: seq<Key>, x: RawFinding)
    requires NoDup(keys)
    ensures multiset(Raws(Flat(env, ctx, raws, keys)))[x] == if GroupKey(env, x) in keys then multiset(raws)[x] else 0
  {
    if keys != [] {
      var front, key := keys[..|keys| - 1], keys[|keys| - 1];
      FlatCounts(env, ctx, raws, front, x);
      var members := Members(env, raws, key);
      RawsAppend(Flat(env, ctx, raws, front), GroupSid(env, ctx, members), members);
      MemberCounts(env, raws, key, x);
      InSnoc(keys, GroupKey(env, x));
      assert key !in front;
    }
  }

  lemma InSnoc<T>(s: seq<T>, x: T)
    requires s != []
    ensures x in s <==> x in s[..|s| - 1] || x == s[|s| - 1]
  {
    assert s == s[..|s| - 1] + [s[|s| - 1]];
  }

  lemma SourcesAreRaws(env: Env, ctx: Context, ts: seq<Tagged>)
    ensures Sources(Number(env, ctx, ts)) == Raws(ts)
  {
    forall i | 0 <= i < |ts| ensures Sources(Number(env, ctx, ts))[i] == Raws(ts)[i] {
      NumberAt(env, ctx, ts, i);
    }
  }

  /** No raw finding is lost, invented or counted twice. */
  lemma RawFindingsConserved(env: Env, ctx: Context, raws: seq<RawFinding>)
    ensures multiset(Sources(CanonicalEvidence(env, ctx, raws).observations)) == multiset(raws)
  {
    var keys := SortedKeys(env, raws);
    GroupsNonempty(env, raws);
    var flat := Flat(env, ctx, raws, keys);
    SourcesAreRaws(env, ctx, flat);
    var a, b := multiset(Raws(flat)), multiset(raws);
    forall x ensures a[x] == b[x] {
      FlatCounts(env, ctx, raws, keys, x);
      if x in raws {
        assert Occupied(KeyOf(env), raws, GroupKey(env, x));
      }
      assert x in raws <==> x in multiset(raws);
    }
    SameCounts(a, b);
  }

  // ----- the observations of the findings are the observations, in order

  function FindingIds(findings: seq<Finding>): (r: seq<seq<string>>)
    ensures |r| == |findings|
  {
    seq(|findings|, i requires 0 <= i < |findings| => findings[i].observationIds)
  }

  lemma IdsSplit(observations: seq<Observation>, n: nat)
    requires n <= |observations|
    ensures Ids(observations) == Ids(observations[..n]) + Ids(observations[n..])
  {
  }

  lemma FindingIdsAppend(findings: seq<Finding>, f: Finding)
    ensures Flatten(FindingIds(findings + [f])) == Flatten(FindingIds(findings)) + f.observationIds
  {
    assert FindingIds(findings + [f]) == FindingIds(findings) + [f.observationIds];
    FlattenAppend(FindingIds(findings), f.observationIds);
  }

  lemma {:induction false} FindingsListObservations(env: Env, ctx: Context, raws: seq<RawFinding>, keys: seq<Key>)
    requires forall k :: k in keys ==> Members(env, raws, k) != []
    ensures Flatten(FindingIds(Findings(env, ctx, raws, keys))) == Ids(Number(env, ctx, Flat(env, ctx, raws, keys)))
  {
    if keys != [] {
      var front, key := keys[..|keys| - 1], keys[|keys| - 1];
      FindingsListObservations(env, ctx, raws, front);
      var members := Members(env, raws, key);
      var before := Flat(env, ctx, raws, front);
      var own := Tag(GroupSid(env, ctx, members), members);
      var all := Number(env, ctx, before + own);
      NumberAppend(env, ctx, before, own);
      IdsSplit(all, |before|);
      FindingIdsAppend(Findings(env, ctx, raws, front), MakeFinding(env, ctx, key, members[0], all[|before|..]));
    }
  }

  /** The reconciliation that `build_snapshot` re-checks: the findings list every
      observation exactly once, in the order of the observations. */
  lemma FindingsReconcile(env: Env, ctx: Context, raws: seq<RawFinding>)
    ensures var e := CanonicalEvidence(env, ctx, raws);
            Flatten(FindingIds(e.findings)) == Ids(e.observations)
  {
    GroupsNonempty(env, raws);
    FindingsListObservations(env, ctx, raws, SortedKeys(env, raws));
  }

  // ----- observation ids are distinct

  ghost predicate CleanContext(ctx: Context) {
    && NulFree(ctx.repository) && NulFree(ctx.commit) && NulFree(ctx.runId)
    && (forall family :: family in ctx.channels ==> NulFree(ctx.channels[family]))
  }

  ghost predicate Clean(raws: seq<RawFinding>) {
    forall r :: r in raws ==> NulFreeFinding(r)
  }

  ghost function ObservationTokens(env: Env, ctx: Context, t: Tagged): seq<string> {
    Map(field => CanonicalText(env, field), ObservationFields(env, ctx, t))
  }

  lemma ObservationTokensNulFree(env: Env, ctx: Context, t: Tagged)
    requires Lawful(env) && CleanContext(ctx) && NulFreeFinding(t.raw) && NulFree(t.sid)
    ensures AllNulFree(ObservationTokens(env, ctx, t)) && |ObservationTokens(env, ctx, t)| == 6
  {
    FamilyNulFree(t.raw);
    OrNulFree(t.raw.id, NONE);
    OrNulFree(t.raw.nativeId, Or(t.raw.id, NONE));
    var fields := ObservationFields(env, ctx, t);
    forall i | 0 <= i < |fields| ensures NulFree(ObservationTokens(env, ctx, t)[i]) {
      CanonicalTextNulFree(env, fields[i]);
    }
  }

  lemma BaseIdNulFree(env: Env, ctx: Context, t: Tagged)
    requires HashLaws(env)
    ensures NulFree(BaseId(env, ctx, t))
  {
  }

  lemma BaseIdIsTokens(env: Env, ctx: Context, t: Tagged)
    ensures BaseId(env, ctx, t) == "obs-v1:" + env.sha(Join(ObservationTokens(env, ctx, t)))
  {
  }

  lemma NoOccurrenceText(env: Env, tokens: seq<string>, base: string, n: nat)
    requires HashLaws(env) && AllNulFree(tokens) && |tokens| == 6 && NulFree(base) && n > 0
    ensures "obs-v1:" + env.sha(Join(tokens)) != OccurrenceId(env, base, n)
  {
    var b := [base, "occurrence:" + Dec(n)];
    assert AllNulFree(b);
    JoinPair(base, "occurrence:" + Dec(n));
    assert base + NUL_TEXT + "occurrence:" + Dec(n) == Join(b);
    if "obs-v1:" + env.sha(Join(tokens)) == OccurrenceId(env, base, n) {
      HashedTextsEqual(env, Join(tokens), Join(b));
      JoinInjective(tokens, b);
      assert false;
    }
  }

  /** A first use never has the id of a repeated use. */
  lemma BaseIsNoOccurrence(env: Env, ctx: Context, t: Tagged, u: Tagged, n: nat)
    requires Lawful(env) && CleanContext(ctx) && NulFreeFinding(t.raw) && NulFree(t.sid) && n > 0
    ensures BaseId(env, ctx, t) != OccurrenceId(env, BaseId(env, ctx, u), n)
  {
    ObservationTokensNulFree(env, ctx, t);
    BaseIdNulFree(env, ctx, u);
    BaseIdIsTokens(env, ctx, t);
    NoOccurrenceText(env, ObservationTokens(env, ctx, t), BaseId(env, ctx, u), n);
  }

  lemma HashedTextsEqual(env: Env, s: string, t: string)
    requires HashLaws(env) && "obs-v1:" + env.sha(s) == "obs-v1:" + env.sha(t)
    ensures s == t
  {
    assert ("obs-v1:" + env.sha(s))[7..] == env.sha(s);
    assert ("obs-v1:" + env.sha(t))[7..] == env.sha(t);
  }

  lemma OccurrenceTexts(env: Env, b: string, c: string, m: nat, n: nat)
    requires HashLaws(env) && m > 0 && n > 0 && NulFree(b) && NulFree(c) && OccurrenceId(env, b, m) == OccurrenceId(env, c, n)
    ensures b == c && m == n
  {
    var x, y := "occurrence:" + Dec(m), "occurrence:" + Dec(n);
    assert b + NUL_TEXT + "occurrence:" + Dec(m) == b + NUL_TEXT + x;
    assert c + NUL_TEXT + "occurrence:" + Dec(n) == c + NUL_TEXT + y;
    HashedTextsEqual(env, b + NUL_TEXT + x, c + NUL_TEXT + y);
    SplitUnique(b, x, c, y);
    assert x[11..] == Dec(m) && y[11..] == Dec(n);
    DecInjective(m, n);
  }

  lemma OccurrencesInjective(env: Env, ctx: Context, t: Tagged, u: Tagged, m: nat, n: nat)
    requires HashLaws(env) && m > 0 && n > 0
    requires OccurrenceId(env, BaseId(env, ctx, t), m) == OccurrenceId(env, BaseId(env, ctx, u), n)
    ensures BaseId(env, ctx, t) == BaseId(env, ctx, u) && m == n
  {
    BaseIdNulFree(env, ctx, t);
    BaseIdNulFree(env, ctx, u);
    OccurrenceTexts(env, BaseId(env, ctx, t), BaseId(env, ctx, u), m, n);
  }

  lemma OccurrenceIdExact(env: Env, ctx: Context, t: Tagged, u: Tagged, m: nat, n: nat)
    requires Lawful(env) && CleanContext(ctx) && NulFreeFinding(t.raw) && NulFree(t.sid)
    requires NulFreeFinding(u.raw) && NulFree(u.sid)
    ensures OccurrenceId(env, BaseId(env, ctx, t), m) == OccurrenceId(env, BaseId(env, ctx, u), n)
       <==> BaseId(env, ctx, t) == BaseId(env, ctx, u) && m == n
  {
    if OccurrenceId(env, BaseId(env, ctx, t), m) == OccurrenceId(env, BaseId(env, ctx, u), n) {
      if m > 0 && n > 0 {
        OccurrencesInjective(env, ctx, t, u, m, n);
      } else if n > 0 {
        BaseIsNoOccurrence(env, ctx, t, u, n);
      } else if m > 0 {
        BaseIsNoOccurrence(env, ctx, u, t, m);
      }
    }
  }

  function HasBase(env: Env, ctx: Context, base: string): Tagged -> bool {
    (t: Tagged) => BaseId(env, ctx, t) == base
  }

  lemma {:induction false} OccurrencesFiltered(env: Env, ctx: Context, ts: seq<Tagged>, base: string)
    ensures Occurrences(env, ctx, ts, base) == |Filter(HasBase(env, ctx, base), ts)|
  {
    if ts != [] {
      OccurrencesFiltered(env, ctx, ts[..|ts| - 1], base);
    }
  }

  /** A later use of a base id has a larger occurrence number. */
  lemma OccurrencesGrow(env: Env, ctx: Context, ts: seq<Tagged>, i: nat, j: nat, base: string)
    requires i < j <= |ts| && BaseId(env, ctx, ts[i]) == base
    ensures Occurrences(env, ctx, ts[..i], base) < Occurrences(env, ctx, ts[..j], base)
  {
    OccurrencesFiltered(env, ctx, ts[..i], base);
    OccurrencesFiltered(env, ctx, ts[..j], base);
    FilterGrows(HasBase(env, ctx, base), ts, i, j);
  }

  lemma NumberedIdsDistinct(env: Env, ctx: Context, ts: seq<Tagged>)
    requires Lawful(env) && CleanContext(ctx)
    requires CleanTags(ts)
    ensures NoDup(Ids(Number(env, ctx, ts)))
  {
    forall i, j | 0 <= i < j < |ts| ensures Ids(Number(env, ctx, ts))[i] != Ids(Number(env, ctx, ts))[j] {
      NumberAt(env, ctx, ts, i);
      NumberAt(env, ctx, ts, j);
      var b, c := BaseId(env, ctx, ts[i]), BaseId(env, ctx, ts[j]);
      var m, n := Occurrences(env, ctx, ts[..i], b), Occurrences(env, ctx, ts[..j], c);
      OccurrenceIdExact(env, ctx, ts[i], ts[j], m, n);
      if b == c {
        OccurrencesGrow(env, ctx, ts, i, j, b);
      }
    }
  }

  ghost predicate CleanTags(ts: seq<Tagged>) {
    forall i :: 0 <= i < |ts| ==> NulFreeFinding(ts[i].raw) && NulFree(ts[i].sid)
  }

  lemma CleanTogether(ts: seq<Tagged>, us: seq<Tagged>)
    requires CleanTags(ts) && CleanTags(us)
    ensures CleanTags(ts + us)
  {
  }

  lemma TagClean(env: Env, ctx: Context, raws: seq<RawFinding>, key: Key)
    requires HashLaws(env) && Clean(raws)
    ensures CleanTags(Tag(GroupSid(env, ctx, Members(env, raws, key)), Members(env, raws, key)))
  {
    var members := Members(env, raws, key);
    BucketMembers(KeyOf(env), raws, key);
    forall i | 0 <= i < |members| ensures NulFreeFinding(members[i]) {
      assert members[i] in members;
    }
    StableIdNulFree(env, ctx, members);
  }

  lemma {:induction false} FlatClean(env: Env, ctx: Context, raws: seq<RawFinding>, keys: seq<Key>)
    requires HashLaws(env) && Clean(raws)
    ensures CleanTags(Flat(env, ctx, raws, keys))
  {
    if keys != [] {
      var front, key := keys[..|keys| - 1], keys[|keys| - 1];
      FlatClean(env, ctx, raws, front);
      TagClean(env, ctx, raws, key);
      CleanTogether(Flat(env, ctx, raws, front), Tag(GroupSid(env, ctx, Members(env, raws, key)), Members(env, raws, key)));
    }
  }

  lemma StableIdNulFree(env: Env, ctx: Context, members: seq<RawFinding>)
    requires HashLaws(env)
    ensures NulFree(GroupSid(env, ctx, members))
  {
  }

  /** All observation ids are distinct, repeated native ids and identical records included. */
  lemma ObservationIdsDistinct(env: Env, ctx: Context, raws: seq<RawFinding>)
    requires Lawful(env) && CleanContext(ctx) && Clean(raws)
    ensures NoDup(Ids(CanonicalEvidence(env, ctx, raws).observations))
  {
    FlatClean(env, ctx, raws, SortedKeys(env, raws));
    NumberedIdsDistinct(env, ctx, Flat(env, ctx, raws, SortedKeys(env, raws)));
  }

  // ----- stable ids

  function StableIds(findings: seq<Finding>): (r: seq<string>)
    ensures |r| == |findings|
  {
    seq(|findings|, i requires 0 <= i < |findings| => findings[i].stableId)
  }

  /** `validate_evidence` on the findings of this repository. */
  predicate ValidFindings(findings: seq<Finding>) {
    && (forall i :: 0 <= i < |findings| ==> findings[i].stableId != "")
    && Dedupe(StableIds(findings)) == StableIds(findings)
  }

  lemma {:induction false} FindingAt(env: Env, ctx: Context, raws: seq<RawFinding>, keys: seq<Key>, i: nat)
    requires forall k :: k in keys ==> Members(env, raws, k) != []
    requires i < |keys|
    ensures Findings(env, ctx, raws, keys)[i].stableId == StableId(env, ctx.repository, Members(env, raws, keys[i])[0])
  {
    if i < |keys| - 1 {
      FindingAt(env, ctx, raws, keys[..|keys| - 1], i);
    }
  }

  /** The record comes before every other record of its group: severity, tool, rule and JSON decide. */
  ghost predicate Leads(env: Env, raws: seq<RawFinding>, f: RawFinding) {
    f in raws && forall g :: g in raws && GroupKey(env, g) == GroupKey(env, f) ==> RowLe(env, f, g)
  }

  /** Two records of different groups, each the first of its group, that the hash confuses. */
  ghost predicate PrimariesClash(env: Env, raws: seq<RawFinding>) {
    exists f, g :: Leads(env, raws, f) && Leads(env, raws, g) && GroupKey(env, f) != GroupKey(env, g) && PathClash(env, f, g)
  }

  ghost predicate SomeKeysClash(env: Env, raws: seq<RawFinding>) {
    exists k, l :: k in SortedKeys(env, raws) && l in SortedKeys(env, raws) && KeysClash(env, raws, k, l)
  }

  /** The first member of a group is the record that leads it. */
  lemma LeaderIsFirst(env: Env, raws: seq<RawFinding>, f: RawFinding)
    requires forall f, g :: env.json(f) == env.json(g) ==> f == g
    requires f in raws
    ensures GroupKey(env, f) in SortedKeys(env, raws) && Members(env, raws, GroupKey(env, f)) != []
    ensures Leads(env, raws, f) <==> Members(env, raws, GroupKey(env, f))[0] == f
  {
    var group := Bucket(KeyOf(env), raws, GroupKey(env, f));
    assert Occupied(KeyOf(env), raws, GroupKey(env, f));
    GroupsNonempty(env, raws);
    BucketMembers(KeyOf(env), raws, GroupKey(env, f));
    RowOrderTotal(env);
    FirstIsLeast(RowOrder(env), group, f);
    LeastOfGroup(env, raws, group, f);
  }

  lemma LeastOfGroup(env: Env, raws: seq<RawFinding>, group: seq<RawFinding>, f: RawFinding)
    requires f in raws && forall g :: g in group <==> g in raws && GroupKey(env, g) == GroupKey(env, f)
    ensures Leads(env, raws, f) <==> f in group && forall g :: g in group ==> RowOrder(env)(f, g)
  {
  }

  /** Clashing leaders are clashing groups. */
  lemma LeadersAreGroups(env: Env, raws: seq<RawFinding>)
    requires forall f, g :: env.json(f) == env.json(g) ==> f == g
    ensures PrimariesClash(env, raws) <==> SomeKeysClash(env, raws)
  {
    if f, g :| Leads(env, raws, f) && Leads(env, raws, g) && GroupKey(env, f) != GroupKey(env, g) && PathClash(env, f, g) {
      LeaderIsFirst(env, raws, f);
      LeaderIsFirst(env, raws, g);
      assert KeysClash(env, raws, GroupKey(env, f), GroupKey(env, g));
    }
    if k, l :| k in SortedKeys(env, raws) && l in SortedKeys(env, raws) && KeysClash(env, raws, k, l) {
      var f, g := Members(env, raws, k)[0], Members(env, raws, l)[0];
      PrimaryFacts(env, raws, k);
      PrimaryFacts(env, raws, l);
      LeaderIsFirst(env, raws, f);
      LeaderIsFirst(env, raws, g);
    }
  }

  ghost predicate KeysClash(env: Env, raws: seq<RawFinding>, k: Key, l: Key) {
    k != l && Members(env, raws, k) != [] && Members(env, raws, l) != []
    && PathClash(env, Members(env, raws, k)[0], Members(env, raws, l)[0])
  }

  lemma PrimaryFacts(env: Env, raws: seq<RawFinding>, k: Key)
    requires k in SortedKeys(env, raws)
    ensures Members(env, raws, k) != [] && Members(env, raws, k)[0] in raws
    ensures GroupKey(env, Members(env, raws, k)[0]) == k
  {
    GroupsNonempty(env, raws);
    BucketMembers(KeyOf(env), raws, k);
    assert Members(env, raws, k)[0] in Members(env, raws, k);
  }

  lemma GroupsShareStableId(env: Env, ctx: Context, raws: seq<RawFinding>, k: Key, l: Key)
    requires Lawful(env) && CleanContext(ctx) && Clean(raws)
    requires k in SortedKeys(env, raws) && l in SortedKeys(env, raws) && k != l
    ensures Members(env, raws, k) != [] && Members(env, raws, l) != []
    ensures StableId(env, ctx.repository, Members(env, raws, k)[0]) == StableId(env, ctx.repository, Members(env, raws, l)[0])
       <==> KeysClash(env, raws, k, l) || KeysClash(env, raws, l, k)
  {
    PrimaryFacts(env, raws, k);
    PrimaryFacts(env, raws, l);
    SharedStableIdExact(env, ctx.repository, Members(env, raws, k)[0], Members(env, raws, l)[0]);
  }

  lemma StableIdsAre(env: Env, ctx: Context, raws: seq<RawFinding>, i: nat)
    requires i < |SortedKeys(env, raws)|
    ensures i < |CanonicalEvidence(env, ctx, raws).findings| == |SortedKeys(env, raws)|
    ensures Members(env, raws, SortedKeys(env, raws)[i]) != []
    ensures StableIds(CanonicalEvidence(env, ctx, raws).findings)[i]
         == StableId(env, ctx.repository, Members(env, raws, SortedKeys(env, raws)[i])[0])
         != ""
  {
    GroupsNonempty(env, raws);
    FindingAt(env, ctx, raws, SortedKeys(env, raws), i);
  }

  lemma Repeated(ids: seq<string>, keys: seq<Key>, i: nat, j: nat)
    requires |ids| == |keys| && i < |keys| && j < |keys| && keys[i] != keys[j] && ids[i] == ids[j]
    ensures !NoDup(ids)
  {
    assert ids[if i < j then i else j] == ids[if i < j then j else i];
  }

  lemma KeyPlace(keys: seq<Key>, k: Key) returns (i: nat)
    requires k in keys
    ensures i < |keys| && keys[i] == k
  {
    i :| 0 <= i < |keys| && keys[i] == k;
  }

  lemma ClashAt(env: Env, ctx: Context, raws: seq<RawFinding>, i: nat, j: nat)
    requires Lawful(env) && CleanContext(ctx) && Clean(raws)
    requires i < |SortedKeys(env, raws)| && j < |SortedKeys(env, raws)| && SortedKeys(env, raws)[i] != SortedKeys(env, raws)[j]
    requires KeysClash(env, raws, SortedKeys(env, raws)[i], SortedKeys(env, raws)[j])
    ensures var ids := StableIds(CanonicalEvidence(env, ctx, raws).findings);
            |ids| == |SortedKeys(env, raws)| && ids[i] == ids[j]
  {
    GroupsShareStableId(env, ctx, raws, SortedKeys(env, raws)[i], SortedKeys(env, raws)[j]);
    StableIdsAre(env, ctx, raws, i);
    StableIdsAre(env, ctx, raws, j);
  }

  lemma ClashMakesDuplicate(env: Env, ctx: Context, raws: seq<RawFinding>, k: Key, l: Key)
    requires Lawful(env) && CleanContext(ctx) && Clean(raws)
    requires k in SortedKeys(env, raws) && l in SortedKeys(env, raws) && KeysClash(env, raws, k, l)
    ensures !NoDup(StableIds(CanonicalEvidence(env, ctx, raws).findings))
  {
    var i := KeyPlace(SortedKeys(env, raws), k);
    var j := KeyPlace(SortedKeys(env, raws), l);
    ClashAt(env, ctx, raws, i, j);
    Repeated(StableIds(CanonicalEvidence(env, ctx, raws).findings), SortedKeys(env, raws), i, j);
  }

  lemma NoClashNoDuplicate(env: Env, ctx: Context, raws: seq<RawFinding>)
    requires Lawful(env) && CleanContext(ctx) && Clean(raws)
    requires !SomeKeysClash(env, raws)
    ensures NoDup(StableIds(CanonicalEvidence(env, ctx, raws).findings))
  {
    var keys := SortedKeys(env, raws);
    var ids := StableIds(CanonicalEvidence(env, ctx, raws).findings);
    GroupsNonempty(env, raws);
    forall i, j | 0 <= i < j < |ids| ensures ids[i] != ids[j] {
      StableIdsAre(env, ctx, raws, i);
      StableIdsAre(env, ctx, raws, j);
      GroupsShareStableId(env, ctx, raws, keys[i], keys[j]);
    }
  }

  /** `canonicalize` produces evidence that `validate_evidence` accepts exactly when no two records
      that lead different groups differ, as far as they are hashed, only in an empty against a missing path. */
  lemma EvidenceValidExact(env: Env, ctx: Context, raws: seq<RawFinding>)
    requires Lawful(env) && CleanContext(ctx) && Clean(raws)
    ensures ValidFindings(CanonicalEvidence(env, ctx, raws).findings) <==> !PrimariesClash(env, raws)
  {
    var findings := CanonicalEvidence(env, ctx, raws).findings;
    ValidMeansDistinct(findings);
    forall i | 0 <= i < |findings| ensures findings[i].stableId != "" {
      StableIdsAre(env, ctx, raws, i);
    }
    LeadersAreGroups(env, raws);
    if SomeKeysClash(env, raws) {
      var k, l :| k in SortedKeys(env, raws) && l in SortedKeys(env, raws) && KeysClash(env, raws, k, l);
      ClashMakesDuplicate(env, ctx, raws, k, l);
    } else {
      NoClashNoDuplicate(env, ctx, raws);
    }
  }

  lemma ValidMeansDistinct(findings: seq<Finding>)
    ensures ValidFindings(findings)
       <==> NoDup(StableIds(findings)) && forall i :: 0 <= i < |findings| ==> findings[i].stableId != ""
  {
    DedupeMembers(StableIds(findings));
    if NoDup(StableIds(findings)) {
      DedupeIdentity(StableIds(findings));
    }
  }

  lemma DotSlashIsEmpty(env: Env)
    requires NormalFormLaws(env)
    ensures CanonicalPath(env, Bare(Some("./"))) == ""
  {
    AsciiText(env, "./");
    assert ForwardSlashes("./") == "./";
    assert "./"[..2] == "./" && "./"[2..] == "";
  }

  lemma MissingFileIsNone(env: Env)
    requires NormalFormLaws(env)
    ensures CanonicalPath(env, Bare(None)) == NONE
  {
    AsciiText(env, NONE);
    NoneIsAPath();
  }

  /** Wherever two records that lead different groups clash, the evidence is invalid. */
  lemma ClashingPair(env: Env, ctx: Context, raws: seq<RawFinding>, f: RawFinding, g: RawFinding)
    requires Lawful(env) && CleanContext(ctx) && Clean(raws)
    requires Leads(env, raws, f) && Leads(env, raws, g) && GroupKey(env, f) != GroupKey(env, g) && PathClash(env, f, g)
    ensures !ValidFindings(CanonicalEvidence(env, ctx, raws).findings)
  {
    EvidenceValidExact(env, ctx, raws);
  }

  /** When no file is cleaned to the empty path, the evidence is valid. */
  lemma NoEmptyPathIsValid(env: Env, ctx: Context, raws: seq<RawFinding>)
    requires Lawful(env) && CleanContext(ctx) && Clean(raws)
    requires forall f :: f in raws ==> CanonicalPath(env, f) != ""
    ensures ValidFindings(CanonicalEvidence(env, ctx, raws).findings)
  {
    EvidenceValidExact(env, ctx, raws);
  }

  /** A record that is alone in its group leads it. */
  lemma AloneLeads(env: Env, raws: seq<RawFinding>, f: RawFinding)
    requires f in raws && forall g :: g in raws && GroupKey(env, g) == GroupKey(env, f) ==> g == f
    ensures Leads(env, raws, f)
  {
    RowLeTotal(env, f, f);
  }

  lemma BareClash(env: Env)
    requires NormalFormLaws(env)
    ensures PathClash(env, Bare(Some("./")), Bare(None))
  {
    DotSlashIsEmpty(env);
    MissingFileIsNone(env);
    AsciiText(env, NONE);
  }

  lemma BothLead(env: Env, f: RawFinding, g: RawFinding)
    requires GroupKey(env, f) != GroupKey(env, g)
    ensures Leads(env, [f, g], f) && Leads(env, [f, g], g)
  {
    assert forall h :: h in [f, g] <==> h == f || h == g;
    AloneLeads(env, [f, g], f);
    AloneLeads(env, [f, g], g);
  }

  lemma BothClean(f: RawFinding, g: RawFinding)
    requires NulFreeFinding(f) && NulFreeFinding(g)
    ensures Clean([f, g])
  {
  }

  /** The clash is reachable: a record whose file is `./` beside one without a file. */
  lemma EmptyPathClashes(env: Env, ctx: Context)
    requires Lawful(env) && CleanContext(ctx)
    requires Fingerprint(env, Bare(Some("./"))) != Fingerprint(env, Bare(None))
    ensures !ValidFindings(CanonicalEvidence(env, ctx, [Bare(Some("./")), Bare(None)]).findings)
  {
    var f, g := Bare(Some("./")), Bare(None);
    BareClash(env);
    BareIsClean(Some("./"));
    BareIsClean(None);
    BothClean(f, g);
    BothLead(env, f, g);
    ClashingPair(env, ctx, [f, g], f, g);
  }

  lemma BareIsClean(file: Option<string>)
    requires NulFreeField(file)
    ensures NulFreeFinding(Bare(file))
  {
  }

  function Bare(file: Option<string>): RawFinding {
    RawFinding(file, Some("rule"), None, None, None, None, Some("Semgrep"), Some("1"), None, None, None, 1, 0, 0, "")
  }

  lemma NoneIsAPath()
    ensures Slashes(NONE) == NONE
  {
    assert ForwardSlashes("<NONE>") == "<NONE>";
    CollapsePlain("<NONE>");
  }

  lemma {:induction false} CollapsePlain(s: string)
    requires '/' !in s
    ensures CollapseSlashes(s) == s
  {
    if s != "" {
      CollapsePlain(s[1..]);
    }
  }
}
