/** The whole of `merge_channel_documents`: the merged snapshot together with the index,
    detail pages and locators that are rebuilt from it. */
module MergeDocuments {
  import opened Sequences
  import opened Ordering
  import opened Text
  import opened StatusContract
  import opened Canonical
  import opened CanonicalTheorems
  import opened Accounting
  import Paging
  import Pipeline
  import opened Hosted
  import opened Bundle
  import opened Merge
  import opened MergeFindings
  import opened MergeTheorems
  import opened MergeAccounts
  import opened MergeRuns

  datatype ReportSet = ReportSet(snapshot: Snapshot, documents: Documents)

  ghost predicate HasDetail(d: Documents, sid: string) {
    exists p, detail :: p in d.details && detail in d.details[p] && detail.row.id == sid
  }

  /** The ids with a detail document. */
  function DetailedIds(d: Documents): (r: set<string>)
    ensures forall sid :: sid in r <==> HasDetail(d, sid)
  {
    set p, detail | p in d.details && detail in d.details[p] :: detail.row.id
  }

  /** A report whose snapshot accounts for its observations, whose documents the consumer
      accepts in any listing order, and whose locators lead to the details. */
  ghost predicate Sound(r: ReportSet) {
    && Accounts(r.snapshot)
    && (forall sid :: sid in StableIds(AllFindings(r.snapshot)) ==> HasDetail(r.documents, sid))
    && (forall listing :: IsListing(r.documents, listing) ==> BundleAccepted(r.documents, AllDetails(r.documents, listing)))
    && (forall id :: id in RowIds(r.documents.findings) ==> LocatorLeadsHome(r.documents, id))
  }

  // ----- rows and details of the merged findings

  function Known(byId: map<string, Observation>): string -> bool {
    id => id in byId
  }

  function KnownOrigins(f: Finding, byId: map<string, Observation>): (r: seq<Observation>) {
    FilterMembers(Known(byId), f.observationIds);
    Origins(Filter(Known(byId), f.observationIds), byId)
  }

  /** A row before its page is known. */
  function MergedIndexRow(f: Finding, byId: map<string, Observation>): IndexRow {
    var origins := KnownOrigins(f, byId);
    IndexRow(f.stableId, f.severity, f.file, f.startLine, f.families, SortedSet(Rules(origins)), |origins|, 0)
  }

  function MergedDetail(f: Finding, byId: map<string, Observation>): Detail {
    Detail(MergedIndexRow(f, byId), KnownOrigins(f, byId))
  }

  /** The sort key of the merged index: severity, file, line and id. */
  predicate FindingLe(a: Detail, b: Detail) {
    if a.row.severity != b.row.severity then StrLe(a.row.severity, b.row.severity)
    else if a.row.file != b.row.file then StrLe(a.row.file, b.row.file)
    else if a.row.line != b.row.line then a.row.line < b.row.line
    else StrLe(a.row.id, b.row.id)
  }

  function DetailOf(byId: map<string, Observation>): Finding -> Detail {
    (f: Finding) => MergedDetail(f, byId)
  }

  function MergedDetails(findings: seq<Finding>, byId: map<string, Observation>): (r: seq<Detail>)
    ensures |r| == |findings|
    ensures forall i :: 0 <= i < |findings| ==> r[i] == MergedDetail(findings[i], byId)
  {
    Map(DetailOf(byId), findings)
  }

  /** The rows of the sorted details, with their pages filled in afterwards. */
  function PagedRows(details: seq<Detail>): (r: seq<IndexRow>)
    ensures |r| == |details|
    ensures forall i :: 0 <= i < |details| ==> r[i] == details[i].row.(page := i / DETAIL_PAGE)
  {
    seq(|details|, i requires 0 <= i < |details| => details[i].row.(page := i / DETAIL_PAGE))
  }

  function MergedReport(s: Snapshot, unmet: bool): Report {
    Report(s.channels, s.findingCount, s.observationCount,
           if unmet || ReportStatus(s.channels) == "partial" then "partial" else "complete")
  }

  function MergedSet(s: Snapshot, unmet: bool): ReportSet
    requires NoDup(Ids(s.observations))
  {
    var details := Sort(FindingLe, MergedDetails(AllFindings(s), ById(s.observations)));
    ReportSet(s, Pack(MergedReport(s, unmet), PagedRows(details), details))
  }

  // ----- the algorithm

  method TrimFindings(old_: seq<Finding>, byId: map<string, Observation>, families: set<string>) returns (kept: seq<Finding>)
    ensures kept == TrimAll(old_, byId, families)
  {
    kept := [];
    for i := 0 to |old_|
      invariant kept == TrimAll(old_[..i], byId, families)
    {
      assert old_[..i + 1][..i] == old_[..i];
      var row := Trim(old_[i], byId, families);
      if Survives(row) {
        kept := kept + [row];
      }
    }
    TakeAll(old_);
  }

  lemma TakeInNext(kept: seq<Finding>, new_: seq<Finding>, families: set<string>, i: nat)
    requires i < |new_|
    ensures var before := TakeInAll(kept, Filter(Touching(families), new_[..i]));
            TakeInAll(kept, Filter(Touching(families), new_[..i + 1])) == if Touches(new_[i], families) then TakeIn(before, new_[i]) else before
  {
    TakeNext(new_, i);
    FilterAppend(Touching(families), new_[..i], new_[i]);
    assert Touching(families)(new_[i]) == Touches(new_[i], families);
    if Touches(new_[i], families) {
      TakeInAllSnoc(kept, Filter(Touching(families), new_[..i]), new_[i]);
    } else {
      assert Filter(Touching(families), new_[..i + 1]) == Filter(Touching(families), new_[..i]);
    }
  }

  method MergeLaneFindings(old_: seq<Finding>, new_: seq<Finding>, byId: map<string, Observation>, families: set<string>)
      returns (combined: seq<Finding>)
    ensures combined == MergeLane(old_, new_, byId, families)
  {
    combined := TrimFindings(old_, byId, families);
    ghost var kept := combined;
    for i := 0 to |new_|
      invariant combined == TakeInAll(kept, Filter(Touching(families), new_[..i]))
    {
      TakeInNext(kept, new_, families, i);
      if Touches(new_[i], families) {
        combined := TakeIn(combined, new_[i]);
      }
    }
    TakeAll(new_);
  }

  lemma TakeInAllSnoc(combined: seq<Finding>, incoming: seq<Finding>, f: Finding)
    ensures TakeInAll(combined, incoming + [f]) == TakeIn(TakeInAll(combined, incoming), f)
  {
    assert (incoming + [f])[..|incoming|] == incoming;
  }

  method MergeChannelRows(names: seq<string>, oldRows: map<string, ChannelRow>, newRows: map<string, ChannelRow>,
                          selected: seq<string>, replace: set<string>) returns (rows: seq<ChannelRow>)
    requires forall c :: c in names ==> c in oldRows || c in newRows
    requires forall c :: c in replace ==> c in newRows
    ensures rows == MergeChannels(names, oldRows, newRows, selected, replace)
  {
    rows := [];
    for i := 0 to |names|
      invariant rows == MergeChannels(names, oldRows, newRows, selected, replace)[..i]
    {
      var c := names[i];
      assert c in names;
      var row;
      if c in replace {
        row := newRows[c];
      } else if c in selected && c in newRows {
        row := if c in oldRows then oldRows[c] else newRows[c];
        row := row.(lastAttempt := Some((newRows[c].status, newRows[c].reason)));
      } else {
        row := if c in oldRows then oldRows[c] else newRows[c];
      }
      TakeNext(MergeChannels(names, oldRows, newRows, selected, replace), i);
      rows := rows + [row];
    }
    TakeAll(MergeChannels(names, oldRows, newRows, selected, replace));
  }

  method MergeBothChannels(old_: Snapshot, new_: Snapshot, selected: seq<string>) returns (channels: seq<ChannelRow>)
    requires Keyed(old_) && Keyed(new_)
    ensures channels == SplicedChannels(old_, new_, selected)
  {
    ChannelUnionFacts(old_, new_);
    var oldRows, newRows := RowsByName(old_.channels), RowsByName(new_.channels);
    channels := MergeChannelRows(ChannelUnion(old_, new_), oldRows, newRows, selected, Replaced(newRows, selected));
  }

  method MergeSnapshot(old_: Snapshot, new_: Snapshot, selected: seq<string>) returns (m: Snapshot)
    requires Keyed(old_) && Keyed(new_)
    ensures m == MergeSnapshots(old_, new_, selected)
  {
    var replace := Replaced(RowsByName(new_.channels), selected);
    var families := ReplacedFamilies(old_, new_, replace);
    var byId := MergedById(old_, new_, families);
    var observations := SplicedObservations(old_, new_, families);
    var canonical := MergeLaneFindings(old_.canonical, new_.canonical, byId, families);
    var advisories := MergeLaneFindings(old_.advisories, new_.advisories, byId, families);
    var channels := MergeBothChannels(old_, new_, selected);
    m := Assemble(observations, canonical, advisories, channels, old_.gate, replace);
  }

  method NumberPages(details: seq<Detail>) returns (rows: seq<IndexRow>)
    ensures rows == PagedRows(details)
  {
    rows := [];
    for i := 0 to |details|
      invariant rows == PagedRows(details)[..i]
    {
      TakeNext(PagedRows(details), i);
      rows := rows + [details[i].row.(page := i / DETAIL_PAGE)];
    }
    TakeAll(PagedRows(details));
  }

  /** Every finding of the snapshot has a detail document on one side. */
  ghost predicate DetailedBy(a: Documents, b: Documents, s: Snapshot) {
    forall sid :: sid in StableIds(AllFindings(s)) ==> HasDetail(a, sid) || HasDetail(b, sid)
  }

  ghost predicate Detailed(previous: ReportSet, incoming: ReportSet, selected: seq<string>)
    requires Keyed(previous.snapshot) && Keyed(incoming.snapshot)
  {
    DetailedBy(previous.documents, incoming.documents, MergeSnapshots(previous.snapshot, incoming.snapshot, selected))
  }

  predicate Unmet(new_: Snapshot, selected: seq<string>)
    requires NoDup(ChannelNames(new_.channels))
  {
    exists i :: 0 <= i < |selected| && selected[i] !in Replaced(RowsByName(new_.channels), selected)
  }

  /** The index, pages and locators of a merged snapshot. */
  method Rebuild(s: Snapshot, unmet: bool) returns (r: ReportSet)
    requires NoDup(Ids(s.observations))
    ensures r == MergedSet(s, unmet)
  {
    var sorted := Sort(FindingLe, MergedDetails(AllFindings(s), ById(s.observations)));
    var rows := NumberPages(sorted);
    var d := BuildDocuments(MergedReport(s, unmet), rows, sorted);
    r := ReportSet(s, d);
  }

  predicate AllIn(findings: seq<Finding>, detailed: set<string>) {
    forall i :: 0 <= i < |findings| ==> findings[i].stableId in detailed
  }

  /** Rebuild, if every merged finding has its detail document. */
  method RebuildDetailed(a: Documents, b: Documents, s: Snapshot, unmet: bool) returns (r: Result<ReportSet>)
    requires NoDup(Ids(s.observations))
    ensures r.Ok? <==> DetailedBy(a, b, s)
    ensures r.Ok? ==> r.value == MergedSet(s, unmet)
  {
    var detailed := DetailedIds(a) + DetailedIds(b);
    DetailedExact(a, b, s, detailed);
    if !AllIn(AllFindings(s), detailed) {
      return Err("Merged channel finding lacks its validated detail document");
    }
    var merged := Rebuild(s, unmet);
    r := Ok(merged);
  }

  method MergeChannelDocuments(previous: ReportSet, incoming: ReportSet, selected: seq<string>) returns (r: Result<ReportSet>)
    requires Keyed(previous.snapshot) && Keyed(incoming.snapshot)
    ensures r.Ok? <==> Lanes(incoming.snapshot, selected) != {} && Detailed(previous, incoming, selected)
    ensures NoDup(Ids(MergeSnapshots(previous.snapshot, incoming.snapshot, selected).observations))
    ensures r.Ok? ==> r.value == MergedSet(MergeSnapshots(previous.snapshot, incoming.snapshot, selected),
                                           Unmet(incoming.snapshot, selected))
  {
    MergedIdsDistinct(previous.snapshot, incoming.snapshot, selected);
    if Replaced(RowsByName(incoming.snapshot.channels), selected) == {} {
      return Err("No selected scanner channel produced valid evidence for this revision");
    }
    var s := MergeSnapshot(previous.snapshot, incoming.snapshot, selected);
    r := RebuildDetailed(previous.documents, incoming.documents, s, Unmet(incoming.snapshot, selected));
  }

  lemma DetailedExact(a: Documents, b: Documents, s: Snapshot, detailed: set<string>)
    requires forall sid :: sid in detailed <==> HasDetail(a, sid) || HasDetail(b, sid)
    ensures DetailedBy(a, b, s) <==> AllIn(AllFindings(s), detailed)
  {
    var findings := AllFindings(s);
    assert forall i :: 0 <= i < |findings| ==> StableIds(findings)[i] == findings[i].stableId;
    if DetailedBy(a, b, s) {
      forall i | 0 <= i < |findings| ensures findings[i].stableId in detailed {
        assert StableIds(findings)[i] in StableIds(findings);
      }
    }
  }

  // ----- the rebuilt documents are sound

  lemma AllOrigins(f: Finding, byId: map<string, Observation>)
    requires forall id :: id in f.observationIds ==> id in byId
    requires forall id :: id in byId ==> byId[id].observationId == id
    ensures Ids(KnownOrigins(f, byId)) == f.observationIds
  {
    FilterEvery(Known(byId), f.observationIds);
    assert forall i :: 0 <= i < |f.observationIds| ==> f.observationIds[i] in f.observationIds;
  }

  lemma MergedOriginIds(s: Snapshot)
    requires FindingsAccount(s)
    ensures OriginIds(MergedDetails(AllFindings(s), ById(s.observations))) == FindingIds(AllFindings(s))
    ensures DetailIds(MergedDetails(AllFindings(s), ById(s.observations))) == StableIds(AllFindings(s))
  {
    var findings, byId := AllFindings(s), ById(s.observations);
    FlattenMembers(FindingIds(findings));
    forall i | 0 <= i < |findings| ensures OriginIds(MergedDetails(findings, byId))[i] == FindingIds(findings)[i] {
      forall id | id in findings[i].observationIds ensures id in byId {
        assert id in FindingIds(findings)[i];
      }
      AllOrigins(findings[i], byId);
    }
  }

  lemma HasPackedDetail(report: Report, rows: seq<IndexRow>, details: seq<Detail>, sid: string)
    requires sid in DetailIds(details)
    ensures HasDetail(Pack(report, rows, details), sid)
  {
    var i :| 0 <= i < |details| && DetailIds(details)[i] == sid;
    Paging.ElementOnPage(details, DETAIL_PAGE, i);
    assert details[i] in Pack(report, rows, details).details[i / DETAIL_PAGE];
  }

  lemma SortedDetails(s: Snapshot, details: seq<Detail>)
    requires FindingsAccount(s)
    requires multiset(details) == multiset(MergedDetails(AllFindings(s), ById(s.observations)))
    ensures |details| == |AllFindings(s)| && NoDup(DetailIds(details))
    ensures forall id :: id in DetailIds(details) <==> id in StableIds(AllFindings(s))
    ensures forall id :: id in Flatten(OriginIds(details)) <==> id in Ids(s.observations)
  {
    var all := MergedDetails(AllFindings(s), ById(s.observations));
    MergedOriginIds(s);
    DetailIdsPermute(details, all);
    DetailIdsMultiset(details, all);
    PermutationNoDup(DetailIds(all), DetailIds(details));
  }

  function DetailId(d: Detail): seq<string> { [d.row.id] }

  lemma DetailIdsFlatten(details: seq<Detail>)
    ensures Flatten(Map(DetailId, details)) == DetailIds(details)
  {
    FlattenSingles(Map(DetailId, details), DetailIds(details));
  }

  lemma DetailIdsMultiset(a: seq<Detail>, b: seq<Detail>)
    requires multiset(a) == multiset(b)
    ensures multiset(DetailIds(a)) == multiset(DetailIds(b))
  {
    Paging.FlattenPermutes(DetailId, a, b);
    DetailIdsFlatten(a);
    DetailIdsFlatten(b);
  }

  /** Documents rebuilt from an accounted snapshot are sound. */
  lemma MergedSetSound(s: Snapshot, unmet: bool)
    requires Accounts(s)
    ensures Sound(MergedSet(s, unmet))
  {
    var details := Sort(FindingLe, MergedDetails(AllFindings(s), ById(s.observations)));
    var rows, report := PagedRows(details), MergedReport(s, unmet);
    var d := Pack(report, rows, details);
    SortedDetails(s, details);
    assert RowIds(rows) == DetailIds(details);
    forall sid | sid in StableIds(AllFindings(s)) ensures HasDetail(d, sid) {
      HasPackedDetail(report, rows, details, sid);
    }
    SameMembersSameMultiset(Flatten(ChannelIds(s.channels)), Ids(s.observations));
    forall listing | IsListing(d, listing) ensures BundleAccepted(d, AllDetails(d, listing)) {
      PackAcceptedExact(report, rows, details, listing);
    }
    forall id | id in RowIds(d.findings) ensures LocatorLeadsHome(d, id) {
      LocatorsLeadHome(report, rows, details, id);
    }
  }

  /** A merged finding is an old or an incoming one. */
  lemma MergedSidOrigin(w: World, old_: Snapshot, new_: Snapshot, selected: seq<string>, sid: string)
    requires Ready(w, old_, new_) && sid in StableIds(AllFindings(MergeSnapshots(old_, new_, selected)))
    ensures sid in StableIds(AllFindings(old_)) || sid in StableIds(AllFindings(new_))
  {
    var m := MergeSnapshots(old_, new_, selected);
    var byId, families := MergedObservations(old_, new_, selected), LostFamilies(old_, new_, selected);
    SnapshotRows(old_);
    SnapshotRows(new_);
    LaneFacts(old_.canonical, new_.canonical, byId, families);
    LaneFacts(old_.advisories, new_.advisories, byId, families);
    SidInLanes(m, sid);
    SidInLanes(old_, sid);
    SidInLanes(new_, sid);
  }

  lemma SidInLanes(s: Snapshot, sid: string)
    ensures sid in StableIds(AllFindings(s)) <==> sid in StableIds(s.canonical) || sid in StableIds(s.advisories)
  {
    assert StableIds(AllFindings(s)) == StableIds(s.canonical) + StableIds(s.advisories);
  }

  /** Merging one sound report into another succeeds and gives a sound report, whenever a
      selected lane completed and the two conditions of the merge theorem hold. */
  lemma MergeKeepsSound(w: World, previous: ReportSet, incoming: ReportSet, selected: seq<string>)
    requires Sound(previous) && Sound(incoming) && Ready(w, previous.snapshot, incoming.snapshot)
    requires StrangersEmpty(previous.snapshot, incoming.snapshot, selected) && MixedHeld(w, previous.snapshot, incoming.snapshot, selected)
    ensures Detailed(previous, incoming, selected)
    ensures NoDup(Ids(MergeSnapshots(previous.snapshot, incoming.snapshot, selected).observations))
    ensures Sound(MergedSet(MergeSnapshots(previous.snapshot, incoming.snapshot, selected), Unmet(incoming.snapshot, selected)))
  {
    MergeAccountsExact(w, previous.snapshot, incoming.snapshot, selected);
    forall sid | sid in StableIds(AllFindings(MergeSnapshots(previous.snapshot, incoming.snapshot, selected)))
      ensures HasDetail(previous.documents, sid) || HasDetail(incoming.documents, sid)
    {
      MergedSidOrigin(w, previous.snapshot, incoming.snapshot, selected, sid);
    }
    MergedSetSound(MergeSnapshots(previous.snapshot, incoming.snapshot, selected), Unmet(incoming.snapshot, selected));
  }

  /** A report built by the producer is sound. */
  lemma BuiltReportSound(s: Snapshot)
    requires Accounts(s)
    ensures OriginsKnown(AllFindings(s), s.observations)
    ensures Sound(ReportSet(s, BundleOf(s)))
  {
    Pipeline.KnownOrigins(s);
    var byId := ById(s.observations);
    var rows, details := MakeRows(AllFindings(s), byId), MakeDetails(AllFindings(s), byId);
    forall listing | IsListing(BundleOf(s), listing) ensures BundleAccepted(BundleOf(s), AllDetails(BundleOf(s), listing)) {
      Pipeline.AccountedBundleAccepted(s, listing);
    }
    assert DetailIds(details) == StableIds(AllFindings(s));
    forall sid | sid in StableIds(AllFindings(s)) ensures HasDetail(BundleOf(s), sid) {
      HasPackedDetail(ReportOf(s), rows, details, sid);
    }
    forall id | id in RowIds(rows) ensures LocatorLeadsHome(BundleOf(s), id) {
      LocatorsLeadHome(ReportOf(s), rows, details, id);
    }
  }
}
