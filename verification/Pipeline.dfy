/** From raw findings to accepted report documents: `canonicalize`, `build_snapshot`,
    `build_analysis_snapshot`, `hosted.build` and the consumer's checks, in one run. */
module Pipeline {
  import opened Sequences
  import opened Ordering
  import opened Paging
  import opened Text
  import opened Identity
  import opened Canonical
  import opened CanonicalTheorems
  import opened Accounting
  import opened ChannelInventory
  import opened Hosted
  import opened Bundle

  function IsDeterministic(f: Finding): bool { f.lane != AI_ADVISORY }

  function IsAdvisory(f: Finding): bool { f.lane == AI_ADVISORY }

  function SnapshotOf(e: Evidence, channels: seq<ChannelRow>, gate: Gate): Snapshot {
    Snapshot(Filter(IsDeterministic, e.findings), Filter(IsAdvisory, e.findings), e.observations,
             channels, |channels|, |e.findings|, |e.observations|, gate)
  }

  // ----- splitting the findings by lane keeps the account

  function Stable(f: Finding): seq<string> { [f.stableId] }

  function Listed(f: Finding): seq<string> { f.observationIds }

  lemma StableIdsFlatten(findings: seq<Finding>)
    ensures Flatten(Map(Stable, findings)) == StableIds(findings)
  {
    FlattenSingles(Map(Stable, findings), StableIds(findings));
  }

  lemma FindingsPermute(a: seq<Finding>, b: seq<Finding>)
    requires multiset(a) == multiset(b)
    ensures |a| == |b|
    ensures multiset(StableIds(a)) == multiset(StableIds(b))
    ensures multiset(Flatten(FindingIds(a))) == multiset(Flatten(FindingIds(b)))
  {
    PermutationMembers(a, b);
    FlattenPermutes(Stable, a, b);
    StableIdsFlatten(a);
    StableIdsFlatten(b);
    FlattenPermutes(Listed, a, b);
    assert Map(Listed, a) == FindingIds(a) && Map(Listed, b) == FindingIds(b);
  }

  lemma LanesPermute(e: Evidence, channels: seq<ChannelRow>, gate: Gate)
    ensures multiset(AllFindings(SnapshotOf(e, channels, gate))) == multiset(e.findings)
  {
    FilterSplit(IsDeterministic, IsAdvisory, e.findings);
  }

  // ----- a finding's families are those of its observations

  ghost predicate IsSlice(e: Evidence, f: Finding, a: nat, b: nat) {
    a <= b <= |e.observations| && f.observationIds == Ids(e.observations[a..b])
    && f.families == SortedSet(Families(e.observations[a..b]))
  }

  lemma PrefixSlice(f: Finding, findings: seq<Finding>, some: seq<Observation>, all: seq<Observation>, a: nat, b: nat)
    requires IsSlice(Evidence(findings, some), f, a, b)
    requires |some| <= |all| && all[..|some|] == some
    ensures IsSlice(Evidence(findings, all), f, a, b)
  {
    assert all[a..b] == all[..|some|][a..b];
  }

  lemma LastSlice(env: Env, ctx: Context, key: Key, primary: RawFinding, findings: seq<Finding>, all: seq<Observation>, start: nat)
    requires start <= |all|
    ensures IsSlice(Evidence(findings, all), MakeFinding(env, ctx, key, primary, all[start..]), start, |all|)
  {
    assert all[start..|all|] == all[start..];
  }

  lemma {:induction false} FindingSlice(env: Env, ctx: Context, raws: seq<RawFinding>, keys: seq<Key>, i: nat)
      returns (a: nat, b: nat)
    requires forall k :: k in keys ==> Members(env, raws, k) != []
    requires i < |keys|
    ensures IsSlice(Evidence([], Number(env, ctx, Flat(env, ctx, raws, keys))), Findings(env, ctx, raws, keys)[i], a, b)
  {
    var front, key := keys[..|keys| - 1], keys[|keys| - 1];
    var members := Members(env, raws, key);
    var before := Flat(env, ctx, raws, front);
    var own := Tag(GroupSid(env, ctx, members), members);
    var all := Number(env, ctx, before + own);
    if i == |keys| - 1 {
      a, b := |before|, |all|;
      LastSlice(env, ctx, key, members[0], [], all, |before|);
    } else {
      a, b := FindingSlice(env, ctx, raws, front, i);
      NumberAppend(env, ctx, before, own);
      PrefixSlice(Findings(env, ctx, raws, front)[i], [], Number(env, ctx, before), all, a, b);
    }
  }

  lemma SliceHasFamily(e: Evidence, f: Finding, a: nat, b: nat, family: string)
    requires IsSlice(e, f, a, b) && family in f.families
    ensures exists j :: 0 <= j < |e.observations| && e.observations[j].observationId in f.observationIds && e.observations[j].family == family
  {
    var own := e.observations[a..b];
    assert family in Families(own);
    var k :| 0 <= k < |own| && Families(own)[k] == family;
    assert Ids(own)[k] == own[k].observationId;
    assert e.observations[a + k] == own[k];
  }

  lemma FamilyInSlice(e: Evidence, f: Finding, a: nat, b: nat, j: nat)
    requires NoDup(Ids(e.observations)) && IsSlice(e, f, a, b)
    requires j < |e.observations| && e.observations[j].observationId in f.observationIds
    ensures e.observations[j].family in f.families
  {
    var own := e.observations[a..b];
    var k :| 0 <= k < |own| && Ids(own)[k] == e.observations[j].observationId;
    assert Ids(e.observations)[a + k] == Ids(e.observations)[j];
    assert j == a + k;
    assert Families(own)[k] == e.observations[j].family;
  }

  lemma SliceFamilies(e: Evidence, f: Finding, a: nat, b: nat)
    requires NoDup(Ids(e.observations)) && IsSlice(e, f, a, b)
    ensures FamiliesOf(f, e.observations)
  {
    forall family ensures family in f.families <==>
      exists j :: 0 <= j < |e.observations| && e.observations[j].observationId in f.observationIds && e.observations[j].family == family
    {
      if family in f.families {
        SliceHasFamily(e, f, a, b, family);
      }
      if j :| 0 <= j < |e.observations| && e.observations[j].observationId in f.observationIds && e.observations[j].family == family {
        FamilyInSlice(e, f, a, b, j);
      }
    }
  }

  lemma EvidenceFamilies(env: Env, ctx: Context, raws: seq<RawFinding>, f: Finding)
    requires Lawful(env) && CleanContext(ctx) && Clean(raws)
    requires f in CanonicalEvidence(env, ctx, raws).findings
    ensures FamiliesOf(f, CanonicalEvidence(env, ctx, raws).observations)
  {
    var e := CanonicalEvidence(env, ctx, raws);
    GroupsNonempty(env, raws);
    ObservationIdsDistinct(env, ctx, raws);
    var i :| 0 <= i < |e.findings| && e.findings[i] == f;
    var a, b := FindingSlice(env, ctx, raws, SortedKeys(env, raws), i);
    SliceFamilies(e, f, a, b);
  }

  // ----- families, seen from the raw findings

  /** Every scanner family of the raw findings belongs to exactly one catalog channel. */
  ghost predicate RawFamiliesAssigned(catalog: seq<Configured>, raws: seq<RawFinding>) {
    && (forall r :: r in raws ==> exists i :: 0 <= i < |catalog| && Family(r) in ChannelFamilies(catalog[i]))
    && (forall r, i, j :: r in raws && 0 <= i < j < |catalog| && Family(r) in ChannelFamilies(catalog[i])
          ==> Family(r) !in ChannelFamilies(catalog[j]))
  }

  lemma NumberedSource(env: Env, ctx: Context, ts: seq<Tagged>, o: Observation)
    requires o in Number(env, ctx, ts)
    ensures o.source in Sources(Number(env, ctx, ts)) && o.family == Family(o.source)
  {
    var all := Number(env, ctx, ts);
    var i :| 0 <= i < |all| && all[i] == o;
    NumberAt(env, ctx, ts, i);
    assert Sources(all)[i] == o.source;
  }

  lemma ObservedSource(env: Env, ctx: Context, raws: seq<RawFinding>, o: Observation)
    requires o in CanonicalEvidence(env, ctx, raws).observations
    ensures o.source in raws && o.family == Family(o.source)
  {
    NumberedSource(env, ctx, Flat(env, ctx, raws, SortedKeys(env, raws)), o);
    RawFindingsConserved(env, ctx, raws);
    PermutationMembers(Sources(CanonicalEvidence(env, ctx, raws).observations), raws);
  }

  lemma SourceOf(observations: seq<Observation>, r: RawFinding) returns (o: Observation)
    requires r in Sources(observations)
    ensures o in observations && o.source == r
  {
    var i :| 0 <= i < |observations| && Sources(observations)[i] == r;
    o := observations[i];
  }

  lemma SourceObserved(env: Env, ctx: Context, raws: seq<RawFinding>, r: RawFinding) returns (o: Observation)
    requires r in raws
    ensures o in CanonicalEvidence(env, ctx, raws).observations && o.source == r
  {
    RawFindingsConserved(env, ctx, raws);
    PermutationMembers(Sources(CanonicalEvidence(env, ctx, raws).observations), raws);
    o := SourceOf(CanonicalEvidence(env, ctx, raws).observations, r);
  }

  lemma AssignedFromRaws(env: Env, ctx: Context, raws: seq<RawFinding>, catalog: seq<Configured>)
    ensures FamiliesAssigned(catalog, CanonicalEvidence(env, ctx, raws).observations) <==> RawFamiliesAssigned(catalog, raws)
  {
    var all := CanonicalEvidence(env, ctx, raws).observations;
    forall o | o in all ensures o.source in raws && o.family == Family(o.source) {
      ObservedSource(env, ctx, raws, o);
    }
    forall r | r in raws ensures exists o :: o in all && o.source == r && o.family == Family(r) {
      var o := SourceObserved(env, ctx, raws, r);
      assert o in all && o.source == r && o.family == Family(r);
    }
  }

  // ----- the whole run

  ghost predicate CatalogValid(catalog: seq<Configured>) {
    catalog != [] && "" !in CatalogNames(catalog) && NoDup(CatalogNames(catalog))
  }

  /** Splitting the findings by lane keeps what they account for. */
  lemma LanesAccount(e: Evidence, channels: seq<ChannelRow>, gate: Gate)
    requires NoDup(Ids(e.observations)) && NoDup(StableIds(e.findings)) && Flatten(FindingIds(e.findings)) == Ids(e.observations)
    ensures FindingsAccount(SnapshotOf(e, channels, gate))
    ensures forall f :: f in AllFindings(SnapshotOf(e, channels, gate)) ==> f in e.findings
    ensures |AllFindings(SnapshotOf(e, channels, gate))| == |e.findings|
  {
    var all := AllFindings(SnapshotOf(e, channels, gate));
    LanesPermute(e, channels, gate);
    FindingsPermute(all, e.findings);
    PermutationNoDup(StableIds(e.findings), StableIds(all));
    PermutationNoDup(Flatten(FindingIds(e.findings)), Flatten(FindingIds(all)));
    PermutationMembers(Flatten(FindingIds(e.findings)), Flatten(FindingIds(all)));
    PermutationMembers(all, e.findings);
  }

  /** The producer's snapshot satisfies the whole accounting invariant. */
  lemma ProducedSnapshotAccounts(env: Env, ctx: Context, raws: seq<RawFinding>, catalog: seq<Configured>, verdict: Verdict, gate: Gate)
    requires Lawful(env) && CleanContext(ctx) && Clean(raws) && CatalogValid(catalog)
    requires !PrimariesClash(env, raws) && RawFamiliesAssigned(catalog, raws)
    ensures var e := CanonicalEvidence(env, ctx, raws);
            Accounts(SnapshotOf(e, MakeChannels(catalog, e.observations, verdict), gate))
  {
    var e := CanonicalEvidence(env, ctx, raws);
    var channels := MakeChannels(catalog, e.observations, verdict);
    var s := SnapshotOf(e, channels, gate);
    ObservationIdsDistinct(env, ctx, raws);
    EvidenceValidExact(env, ctx, raws);
    ValidMeansDistinct(e.findings);
    FindingsReconcile(env, ctx, raws);
    AssignedFromRaws(env, ctx, raws, catalog);
    ChannelsPartitionExact(catalog, e.observations, verdict);
    LanesAccount(e, channels, gate);
    forall i | 0 <= i < |AllFindings(s)| ensures FamiliesOf(AllFindings(s)[i], s.observations) {
      assert AllFindings(s)[i] in AllFindings(s);
      EvidenceFamilies(env, ctx, raws, AllFindings(s)[i]);
    }
    assert ChannelNames(channels) == CatalogNames(catalog);
  }

  lemma KnownOrigins(s: Snapshot)
    requires FindingsAccount(s)
    ensures OriginsKnown(AllFindings(s), s.observations)
  {
    FlattenMembers(FindingIds(AllFindings(s)));
    forall i, id | 0 <= i < |AllFindings(s)| && id in AllFindings(s)[i].observationIds ensures id in Ids(s.observations) {
      assert id in FindingIds(AllFindings(s))[i];
    }
  }

  lemma DetailsListIds(findings: seq<Finding>, byId: map<string, Observation>)
    requires forall i :: 0 <= i < |findings| ==> forall id :: id in findings[i].observationIds ==> id in byId
    requires forall id :: id in byId ==> byId[id].observationId == id
    ensures OriginIds(MakeDetails(findings, byId)) == FindingIds(findings) && RowIds(MakeRows(findings, byId)) == StableIds(findings)
  {
    var details := MakeDetails(findings, byId);
    forall i | 0 <= i < |details| ensures OriginIds(details)[i] == FindingIds(findings)[i] {
      OriginsKeepIds(findings[i].observationIds, byId);
    }
  }

  /** Documents built from an accounted snapshot pass every check of the consumer. */
  lemma AccountedBundleAccepted(s: Snapshot, listing: seq<nat>)
    requires ChannelsAccount(s) && FindingsAccount(s)
    ensures OriginsKnown(AllFindings(s), s.observations)
    ensures IsListing(BundleOf(s), listing) ==> BundleAccepted(BundleOf(s), AllDetails(BundleOf(s), listing))
  {
    KnownOrigins(s);
    var byId := ById(s.observations);
    DetailsListIds(AllFindings(s), byId);
    SameMembersSameMultiset(Flatten(ChannelIds(s.channels)), Ids(s.observations));
    if IsListing(BundleOf(s), listing) {
      PackAcceptedExact(ReportOf(s), MakeRows(AllFindings(s), byId), MakeDetails(AllFindings(s), byId), listing);
    }
  }

  lemma OriginsKeepIds(ids: seq<string>, byId: map<string, Observation>)
    requires forall id :: id in ids ==> id in byId
    requires forall id :: id in byId ==> byId[id].observationId == id
    ensures Ids(Origins(ids, byId)) == ids
  {
    assert forall i :: 0 <= i < |ids| ==> ids[i] in ids;
  }

  /** `build_snapshot` and `build_analysis_snapshot` for exact-commit evidence. */
  method MakeSnapshot(e: Evidence, catalog: seq<Configured>, verdict: Verdict, gate: Gate) returns (r: Result<Snapshot>)
    ensures r.Ok? <==> ValidFindings(e.findings) && CatalogValid(catalog)
                       && multiset(Flatten(FindingIds(e.findings))) == multiset(Ids(e.observations))
    ensures r.Ok? ==> r.value == SnapshotOf(e, MakeChannels(catalog, e.observations, verdict), gate)
  {
    if !ValidFindings(e.findings) { return Err("canonical evidence is invalid"); }
    var referenced, observed := Flatten(FindingIds(e.findings)), Ids(e.observations);
    StrTotalOrder();
    if multiset(referenced) == multiset(observed) { SortPermutation(StrLe, referenced, observed); }
    if |referenced| != |observed| || SortStrings(referenced) != SortStrings(observed) {
      return Err("canonical finding and observation counts do not reconcile");
    }
    var channels := BuildAnalysisChannels(catalog, e.observations, verdict);
    if channels.Err? { return Err(channels.message); }
    r := Ok(SnapshotOf(e, channels.value, gate));
  }

  /** The producer from raw findings to documents. It succeeds exactly when the catalog is
      well formed, every scanner family has exactly one channel and no two groups clash on an
      empty path; whatever it returns is then accepted by the consumer. */
  method Produce(env: Env, ctx: Context, raws: seq<RawFinding>, catalog: seq<Configured>, verdict: Verdict, gate: Gate)
      returns (r: Result<Documents>)
    requires Lawful(env) && CleanContext(ctx) && Clean(raws)
    ensures r.Ok? <==> CatalogValid(catalog) && !PrimariesClash(env, raws) && RawFamiliesAssigned(catalog, raws)
    ensures r.Ok? ==> forall listing :: IsListing(r.value, listing) ==> BundleAccepted(r.value, AllDetails(r.value, listing))
  {
    var e := Canonicalize(env, ctx, raws);
    EvidenceValidExact(env, ctx, raws);
    FindingsReconcile(env, ctx, raws);
    var s := MakeSnapshot(e, catalog, verdict, gate);
    if s.Err? { return Err(s.message); }
    ObservationIdsDistinct(env, ctx, raws);
    AssignedFromRaws(env, ctx, raws, catalog);
    ChannelsPartitionExact(catalog, e.observations, verdict);
    r := Build(s.value);
    if RawFamiliesAssigned(catalog, raws) {
      ProducedSnapshotAccounts(env, ctx, raws, catalog, verdict, gate);
      KnownOrigins(s.value);
    }
    if r.Ok? {
      forall listing | IsListing(r.value, listing) ensures BundleAccepted(r.value, AllDetails(r.value, listing)) {
        AccountedBundleAccepted(s.value, listing);
      }
    }
  }
}
