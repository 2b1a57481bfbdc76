/** Canonical evidence: raw findings are grouped, sorted, numbered and given ids. */
module Canonical {
  import opened Sequences
  import opened Ordering
  import opened Grouping
  import opened Text
  import opened Identity

  datatype Context = Context(repository: string, commit: string, runId: string,
                             channels: map<string, string>)

  /** One scanner record kept under a finding; `source` stands for the fields copied from it. */
  datatype Observation = Observation(observationId: string, family: string, channel: string,
                                     nativeId: string, source: RawFinding)

  datatype Finding = Finding(stableId: string, fingerprint: string, concept: string, severity: string,
                             file: string, startLine: int, symbol: string, anchor: string,
                             families: seq<string>, channels: seq<string>,
                             observationIds: seq<string>, lane: string)

  datatype Evidence = Evidence(findings: seq<Finding>, observations: seq<Observation>)

  /** A raw finding with the stable id of its group. */
  datatype Tagged = Tagged(sid: string, raw: RawFinding)

  type Key = (string, string)

  // ----- sorting

  function SeverityRank(severity: Option<string>): int {
    if severity == Some("CRITICAL") then 5
    else if severity == Some("HIGH") then 4
    else if severity == Some("MEDIUM") then 3
    else if severity == Some("LOW") then 2
    else if severity == Some("INFO") then 1
    else 0
  }

  /** `str(value)`. */
  function PyStr(value: Option<string>): string {
    if value.Some? then value.value else "None"
  }

  /** The sort key of a group: highest severity first, then tool, rule and the full JSON. */
  predicate RowLe(env: Env, a: RawFinding, b: RawFinding) {
    if SeverityRank(a.severity) != SeverityRank(b.severity) then
      SeverityRank(a.severity) > SeverityRank(b.severity)
    else if PyStr(a.sourceTool) != PyStr(b.sourceTool) then StrLe(PyStr(a.sourceTool), PyStr(b.sourceTool))
    else if PyStr(a.ruleId) != PyStr(b.ruleId) then StrLe(PyStr(a.ruleId), PyStr(b.ruleId))
    else StrLe(env.json(a), env.json(b))
  }

  function RowOrder(env: Env): (RawFinding, RawFinding) -> bool {
    (a, b) => RowLe(env, a, b)
  }

  function KeyOf(env: Env): RawFinding -> Key {
    r => GroupKey(env, r)
  }

  // ----- the specification

  /** The group keys, sorted. */
  function SortedKeys(env: Env, raws: seq<RawFinding>): seq<Key> {
    Sort(PairLe, Keys(KeyOf(env), raws))
  }

  /** The sorted members of one group. */
  function Members(env: Env, raws: seq<RawFinding>, key: Key): seq<RawFinding> {
    Sort(RowOrder(env), Bucket(KeyOf(env), raws, key))
  }

  function Tag(sid: string, members: seq<RawFinding>): (r: seq<Tagged>)
    ensures |r| == |members|
  {
    seq(|members|, i requires 0 <= i < |members| => Tagged(sid, members[i]))
  }

  /** The stable id of a group is that of its first member. */
  function GroupSid(env: Env, ctx: Context, members: seq<RawFinding>): string {
    if members == [] then "" else StableId(env, ctx.repository, members[0])
  }

  /** Every raw finding in output order. */
  function Flat(env: Env, ctx: Context, raws: seq<RawFinding>, keys: seq<Key>): seq<Tagged> {
    if keys == [] then []
    else
      var members := Members(env, raws, keys[|keys| - 1]);
      Flat(env, ctx, raws, keys[..|keys| - 1]) + Tag(GroupSid(env, ctx, members), members)
  }

  function Channel(env: Env, ctx: Context, family: string): string {
    if family in ctx.channels then ctx.channels[family] else env.slug(family)
  }

  function NativeId(f: RawFinding): string {
    Or(f.nativeId, Or(f.id, NONE))
  }

  function ObservationFields(env: Env, ctx: Context, t: Tagged): seq<string> {
    [t.sid, ctx.commit, Family(t.raw), Channel(env, ctx, Family(t.raw)), ctx.runId, NativeId(t.raw)]
  }

  function BaseId(env: Env, ctx: Context, t: Tagged): string {
    "obs-v1:" + env.sha(JoinTexts(env, ObservationFields(env, ctx, t)))
  }

  function OccurrenceId(env: Env, base: string, occurrence: nat): string {
    if occurrence == 0 then base
    else "obs-v1:" + env.sha(base + NUL_TEXT + "occurrence:" + Dec(occurrence))
  }

  /** How often a base id has been used before. */
  function Occurrences(env: Env, ctx: Context, ts: seq<Tagged>, base: string): nat {
    if ts == [] then 0
    else Occurrences(env, ctx, ts[..|ts| - 1], base)
         + if BaseId(env, ctx, ts[|ts| - 1]) == base then 1 else 0
  }

  function MakeObservation(env: Env, ctx: Context, t: Tagged, occurrence: nat): Observation {
    Observation(OccurrenceId(env, BaseId(env, ctx, t), occurrence), Family(t.raw),
                Channel(env, ctx, Family(t.raw)), NativeId(t.raw), t.raw)
  }

  /** Observations in output order; a repeated base id is told apart by its occurrence. */
  function Number(env: Env, ctx: Context, ts: seq<Tagged>): (r: seq<Observation>)
    ensures |r| == |ts|
  {
    if ts == [] then []
    else
      var front, last := ts[..|ts| - 1], ts[|ts| - 1];
      Number(env, ctx, front) + [MakeObservation(env, ctx, last, Occurrences(env, ctx, front, BaseId(env, ctx, last)))]
  }

  function Ids(observations: seq<Observation>): (r: seq<string>)
    ensures |r| == |observations|
  {
    seq(|observations|, i requires 0 <= i < |observations| => observations[i].observationId)
  }

  function Families(observations: seq<Observation>): (r: seq<string>)
    ensures |r| == |observations|
  {
    seq(|observations|, i requires 0 <= i < |observations| => observations[i].family)
  }

  function Channels(observations: seq<Observation>): (r: seq<string>)
    ensures |r| == |observations|
  {
    seq(|observations|, i requires 0 <= i < |observations| => observations[i].channel)
  }

  function MakeFinding(env: Env, ctx: Context, key: Key, primary: RawFinding, observations: seq<Observation>): Finding {
    Finding(StableId(env, ctx.repository, primary), key.1, Or(primary.ruleConcept, Or(primary.ruleId, "unknown")),
            Or(primary.severity, "MEDIUM"), CanonicalPath(env, primary), primary.startLine,
            Or(primary.symbol, NONE), NormalizedAnchor(env, primary),
            SortedSet(Families(observations)), SortedSet(Channels(observations)), Ids(observations), key.0)
  }

  function Findings(env: Env, ctx: Context, raws: seq<RawFinding>, keys: seq<Key>): (r: seq<Finding>)
    ensures |r| == |keys|
    requires forall k :: k in keys ==> Members(env, raws, k) != []
  {
    if keys == [] then []
    else
      var front, key := keys[..|keys| - 1], keys[|keys| - 1];
      var start := |Flat(env, ctx, raws, front)|;
      Findings(env, ctx, raws, front)
      + [MakeFinding(env, ctx, key, Members(env, raws, key)[0], Number(env, ctx, Flat(env, ctx, raws, keys))[start..])]
  }

  lemma GroupsNonempty(env: Env, raws: seq<RawFinding>)
    ensures NoDup(SortedKeys(env, raws))
    ensures forall k :: k in SortedKeys(env, raws) <==> Occupied(KeyOf(env), raws, k)
    ensures forall k :: k in SortedKeys(env, raws) ==> Members(env, raws, k) != []
  {
    var keys := Keys(KeyOf(env), raws);
    KeysMembers(KeyOf(env), raws);
    PermutationNoDup(keys, Sort(PairLe, keys));
    forall k | k in SortedKeys(env, raws) ensures Members(env, raws, k) != [] {
      BucketMembers(KeyOf(env), raws, k);
    }
  }

  function CanonicalEvidence(env: Env, ctx: Context, raws: seq<RawFinding>): Evidence {
    var keys := SortedKeys(env, raws);
    GroupsNonempty(env, raws);
    Evidence(Findings(env, ctx, raws, keys), Number(env, ctx, Flat(env, ctx, raws, keys)))
  }

  // ----- the algorithm

  lemma {:induction false} NumberAppend(env: Env, ctx: Context, a: seq<Tagged>, b: seq<Tagged>)
    ensures Number(env, ctx, a + b)[..|a|] == Number(env, ctx, a)
  {
    if b == [] {
      assert a + b == a;
    } else {
      var front := b[..|b| - 1];
      NumberAppend(env, ctx, a, front);
      assert (a + b)[..|a + b| - 1] == a + front;
    }
  }

  lemma NumberSnoc(env: Env, ctx: Context, ts: seq<Tagged>, t: Tagged)
    ensures Number(env, ctx, ts + [t])
         == Number(env, ctx, ts) + [MakeObservation(env, ctx, t, Occurrences(env, ctx, ts, BaseId(env, ctx, t)))]
    ensures forall base :: Occurrences(env, ctx, ts + [t], base)
                        == Occurrences(env, ctx, ts, base) + if BaseId(env, ctx, t) == base then 1 else 0
  {
    assert (ts + [t])[..|ts|] == ts;
  }

  /** `seen` counts the base ids used by `ts`. */
  ghost predicate Counts(env: Env, ctx: Context, seen: map<string, nat>, ts: seq<Tagged>) {
    forall base :: (if base in seen then seen[base] else 0) == Occurrences(env, ctx, ts, base)
  }

  /** `observations` and the counters after `before` and then `own`. */
  ghost predicate Numbered(env: Env, ctx: Context, before: seq<Tagged>, own: seq<Tagged>,
                           observations: seq<Observation>, seen: map<string, nat>) {
    && Number(env, ctx, before) + observations == Number(env, ctx, before + own)
    && Counts(env, ctx, seen, before + own)
  }

  function Seen(seen: map<string, nat>, base: string): nat {
    if base in seen then seen[base] else 0
  }

  /** The counters after one more record. */
  lemma CountStep(env: Env, ctx: Context, seen: map<string, nat>, ts: seq<Tagged>, t: Tagged)
    requires Counts(env, ctx, seen, ts)
    ensures var base := BaseId(env, ctx, t); Counts(env, ctx, seen[base := Seen(seen, base) + 1], ts + [t])
  {
    var base := BaseId(env, ctx, t);
    NumberSnoc(env, ctx, ts, t);
    assert Seen(seen, base) == Occurrences(env, ctx, ts, base);
    var next := seen[base := Seen(seen, base) + 1];
    forall other ensures (if other in next then next[other] else 0) == Occurrences(env, ctx, ts + [t], other) {
      assert (if other in seen then seen[other] else 0) == Occurrences(env, ctx, ts, other);
    }
  }

  lemma AppendTwice<T>(a: seq<T>, b: seq<T>, x: T)
    ensures a + (b + [x]) == (a + b) + [x]
  {
  }

  lemma NumberStep(env: Env, ctx: Context, before: seq<Tagged>, own: seq<Tagged>, t: Tagged,
                   observations: seq<Observation>, seen: map<string, nat>)
    requires Numbered(env, ctx, before, own, observations, seen)
    ensures var base := BaseId(env, ctx, t);
            Numbered(env, ctx, before, own + [t], observations + [MakeObservation(env, ctx, t, Seen(seen, base))],
                     seen[base := Seen(seen, base) + 1])
  {
    var base := BaseId(env, ctx, t);
    AppendTwice(before, own, t);
    NumberSnoc(env, ctx, before + own, t);
    assert Seen(seen, base) == Occurrences(env, ctx, before + own, base);
    CountStep(env, ctx, seen, before + own, t);
    AppendTwice(Number(env, ctx, before), observations, MakeObservation(env, ctx, t, Seen(seen, base)));
  }

  lemma TagSnoc(sid: string, members: seq<RawFinding>, i: nat)
    requires i < |members|
    ensures Tag(sid, members[..i + 1]) == Tag(sid, members[..i]) + [Tagged(sid, members[i])]
  {
    TakeNext(members, i);
  }

  lemma NumberNone(env: Env, ctx: Context, before: seq<Tagged>, sid: string, seen: map<string, nat>)
    requires Counts(env, ctx, seen, before)
    ensures Numbered(env, ctx, before, Tag(sid, []), [], seen)
  {
    assert before + Tag(sid, []) == before;
  }

  /** One group's observations, numbered against everything that came before. */
  method NumberGroup(env: Env, ctx: Context, sid: string, members: seq<RawFinding>, ghost before: seq<Tagged>,
                     seen: map<string, nat>) returns (observations: seq<Observation>, seen': map<string, nat>)
    requires Counts(env, ctx, seen, before)
    ensures Numbered(env, ctx, before, Tag(sid, members), observations, seen')
  {
    observations, seen' := [], seen;
    NumberNone(env, ctx, before, sid, seen);
    for i := 0 to |members|
      invariant Numbered(env, ctx, before, Tag(sid, members[..i]), observations, seen')
    {
      var t := Tagged(sid, members[i]);
      TagSnoc(sid, members, i);
      NumberStep(env, ctx, before, Tag(sid, members[..i]), t, observations, seen');
      var base := BaseId(env, ctx, t);
      observations := observations + [MakeObservation(env, ctx, t, Seen(seen', base))];
      seen' := seen'[base := Seen(seen', base) + 1];
    }
    TakeAll(members);
  }

  /** What the output lists hold after the groups `done`. */
  ghost predicate Emitted(env: Env, ctx: Context, raws: seq<RawFinding>, done: seq<Key>,
                          findings: seq<Finding>, observations: seq<Observation>, seen: map<string, nat>) {
    && (forall k :: k in done ==> Members(env, raws, k) != [])
    && findings == Findings(env, ctx, raws, done)
    && observations == Number(env, ctx, Flat(env, ctx, raws, done))
    && Counts(env, ctx, seen, Flat(env, ctx, raws, done))
  }

  lemma FlatSnoc(env: Env, ctx: Context, raws: seq<RawFinding>, done: seq<Key>, key: Key)
    ensures Flat(env, ctx, raws, done + [key])
         == Flat(env, ctx, raws, done) + Tag(GroupSid(env, ctx, Members(env, raws, key)), Members(env, raws, key))
  {
    assert (done + [key])[..|done|] == done;
  }

  lemma FindingsSnoc(env: Env, ctx: Context, raws: seq<RawFinding>, done: seq<Key>, key: Key)
    requires (forall k :: k in done ==> Members(env, raws, k) != []) && Members(env, raws, key) != []
    ensures forall k :: k in done + [key] ==> Members(env, raws, k) != []
    ensures Findings(env, ctx, raws, done + [key])
         == Findings(env, ctx, raws, done)
            + [MakeFinding(env, ctx, key, Members(env, raws, key)[0],
                           Number(env, ctx, Flat(env, ctx, raws, done + [key]))[|Flat(env, ctx, raws, done)|..])]
  {
    assert (done + [key])[..|done|] == done;
  }

  lemma TailOf<T>(a: seq<T>, b: seq<T>)
    ensures (a + b)[|a|..] == b
  {
  }

  lemma EmitStep(env: Env, ctx: Context, raws: seq<RawFinding>, done: seq<Key>, key: Key, members: seq<RawFinding>,
                 findings: seq<Finding>, observations: seq<Observation>, seen: map<string, nat>,
                 own: seq<Observation>, seen': map<string, nat>)
    requires Emitted(env, ctx, raws, done, findings, observations, seen)
    requires members == Members(env, raws, key) != []
    requires Numbered(env, ctx, Flat(env, ctx, raws, done), Tag(GroupSid(env, ctx, members), members), own, seen')
    ensures Emitted(env, ctx, raws, done + [key], findings + [MakeFinding(env, ctx, key, members[0], own)],
                    observations + own, seen')
  {
    FlatSnoc(env, ctx, raws, done, key);
    FindingsSnoc(env, ctx, raws, done, key);
    TailOf(observations, own);
  }

  lemma GroupedMembers(env: Env, raws: seq<RawFinding>, keys: seq<Key>, groups: map<Key, seq<RawFinding>>, key: Key)
    requires Grouped(KeyOf(env), raws, keys, groups) && key in Sort(PairLe, keys)
    ensures key in groups && Sort(RowOrder(env), groups[key]) == Members(env, raws, key) && Members(env, raws, key) != []
  {
    assert key in SortedKeys(env, raws);
    GroupsNonempty(env, raws);
  }

  /** One group taken out of the dictionary and numbered. */
  method EmitGroup(env: Env, ctx: Context, raws: seq<RawFinding>, order: seq<Key>, i: nat, groups: map<Key, seq<RawFinding>>,
                   findings: seq<Finding>, observations: seq<Observation>, seen: map<string, nat>)
      returns (findings': seq<Finding>, observations': seq<Observation>, seen': map<string, nat>)
    requires i < |order| && Emitted(env, ctx, raws, order[..i], findings, observations, seen)
    requires order[i] in groups && Sort(RowOrder(env), groups[order[i]]) == Members(env, raws, order[i]) != []
    ensures Emitted(env, ctx, raws, order[..i + 1], findings', observations', seen')
  {
    var key := order[i];
    var members := Sort(RowOrder(env), groups[key]);
    var own;
    own, seen' := NumberGroup(env, ctx, GroupSid(env, ctx, members), members, Flat(env, ctx, raws, order[..i]), seen);
    EmitStep(env, ctx, raws, order[..i], key, members, findings, observations, seen, own, seen');
    TakeNext(order, i);
    observations' := observations + own;
    findings' := findings + [MakeFinding(env, ctx, key, members[0], own)];
  }

  lemma EmitNone(env: Env, ctx: Context, raws: seq<RawFinding>)
    ensures Emitted(env, ctx, raws, [], [], [], map[])
  {
  }

  method Canonicalize(env: Env, ctx: Context, raws: seq<RawFinding>) returns (result: Evidence)
    ensures result == CanonicalEvidence(env, ctx, raws)
  {
    var keys, groups := GroupBy(KeyOf(env), raws);
    var order := Sort(PairLe, keys);
    var findings: seq<Finding>, observations: seq<Observation>, seen: map<string, nat> := [], [], map[];
    EmitNone(env, ctx, raws);
    for i := 0 to |order|
      invariant Emitted(env, ctx, raws, order[..i], findings, observations, seen)
    {
      assert order[i] in order;
      GroupedMembers(env, raws, keys, groups, order[i]);
      findings, observations, seen := EmitGroup(env, ctx, raws, order, i, groups, findings, observations, seen);
    }
    TakeAll(order);
    result := Evidence(findings, observations);
  }
}
