/** Hosted report documents: the pages `hosted.build` writes and the independent check
    that `validate_bundle` makes of them before they are collected. */
module Hosted {
  import opened Sequences
  import opened Ordering
  import opened Text
  import opened Grouping
  import opened Paging
  import opened Canonical
  import opened CanonicalTheorems
  import opened Accounting
  import opened StatusContract

  const DETAIL_PAGE := 100
  const FINDINGS_PAGE := 500

  datatype IndexRow = IndexRow(id: string, severity: string, file: string, line: int, scanners: seq<string>,
                               rules: seq<string>, observationCount: nat, page: nat)

  datatype Detail = Detail(row: IndexRow, origins: seq<Observation>)

  datatype Locator = Locator(id: string, detailPage: nat)

  datatype Report = Report(channels: seq<ChannelRow>, findingCount: nat, observationCount: nat, status: string)

  datatype Documents = Documents(report: Report, findings: seq<IndexRow>, details: map<nat, seq<Detail>>,
                                 findingsPages: map<nat, seq<IndexRow>>, locators: map<string, seq<Locator>>)

  function RowIds(rows: seq<IndexRow>): (r: seq<string>)
    ensures |r| == |rows|
    ensures forall i :: 0 <= i < |rows| ==> r[i] == rows[i].id
  {
    seq(|rows|, i requires 0 <= i < |rows| => rows[i].id)
  }

  function DetailIds(details: seq<Detail>): (r: seq<string>)
    ensures |r| == |details|
    ensures forall i :: 0 <= i < |details| ==> r[i] == details[i].row.id
  {
    seq(|details|, i requires 0 <= i < |details| => details[i].row.id)
  }

  function OriginIds(details: seq<Detail>): (r: seq<seq<string>>)
    ensures |r| == |details|
    ensures forall i :: 0 <= i < |details| ==> r[i] == Ids(details[i].origins)
  {
    seq(|details|, i requires 0 <= i < |details| => Ids(details[i].origins))
  }

  function Rule(o: Observation): string {
    Or(o.source.ruleId, "unknown")
  }

  function Rules(origins: seq<Observation>): (r: seq<string>)
    ensures |r| == |origins|
  {
    seq(|origins|, i requires 0 <= i < |origins| => Rule(origins[i]))
  }

  /** `{row["observation_id"]: row for row in observations}`. */
  function ById(observations: seq<Observation>): (r: map<string, Observation>)
    requires NoDup(Ids(observations))
    ensures forall id :: id in r <==> id in Ids(observations)
    ensures forall id :: id in r ==> r[id] in observations && r[id].observationId == id
    ensures forall o :: o in observations ==> o.observationId in r && r[o.observationId] == o
  {
    IdsFacts(observations);
    map o | o in observations :: o.observationId := o
  }

  lemma IdsFacts(observations: seq<Observation>)
    requires NoDup(Ids(observations))
    ensures forall o, p :: o in observations && p in observations && o.observationId == p.observationId ==> o == p
    ensures forall id :: id in Ids(observations) <==> exists o :: o in observations && o.observationId == id
  {
    forall o, p | o in observations && p in observations && o.observationId == p.observationId ensures o == p {
      var i :| 0 <= i < |observations| && observations[i] == o;
      var j :| 0 <= j < |observations| && observations[j] == p;
      assert Ids(observations)[i] == Ids(observations)[j];
    }
    forall id ensures id in Ids(observations) <==> exists o :: o in observations && o.observationId == id {
      if id in Ids(observations) {
        var i :| 0 <= i < |observations| && Ids(observations)[i] == id;
        assert observations[i] in observations;
      }
      if o :| o in observations && o.observationId == id {
        var i :| 0 <= i < |observations| && observations[i] == o;
        assert Ids(observations)[i] == id;
      }
    }
  }

  /** The observations behind a list of ids. */
  function Origins(ids: seq<string>, byId: map<string, Observation>): (r: seq<Observation>)
    requires forall id :: id in ids ==> id in byId
    ensures |r| == |ids|
    ensures forall i :: 0 <= i < |ids| ==> r[i] == byId[ids[i]]
  {
    seq(|ids|, i requires 0 <= i < |ids| => byId[ids[i]])
  }

  // ----- documents from rows

  function PageMap<T>(s: seq<T>, size: nat): (r: map<nat, seq<T>>)
    requires size > 0
    ensures forall p: nat :: p in r <==> p < PageCount(|s|, size)
    ensures forall p :: p in r ==> r[p] == Page(s, size, p)
  {
    map p: nat | 0 <= p < PageCount(|s|, size) :: Page(s, size, p)
  }

  function Tail(id: string): string
    decreases |id|
  {
    if ':' !in id then id else Tail(AfterColon(id))
  }

  function AfterColon(id: string): (r: string)
    requires ':' in id
    ensures |r| < |id|
  {
    if id[0] == ':' then id[1..] else AfterColon(id[1..])
  }

  function Lower(c: char): char {
    if 'A' <= c <= 'Z' then c - 'A' + 'a' else c
  }

  /** The locator bucket of a finding id: the first hexadecimal digit after its last colon. */
  function LocatorBucket(id: string): string {
    var tail := Tail(id);
    if tail != "" && ('0' <= tail[0] <= '9' || 'a' <= Lower(tail[0]) <= 'f') then [Lower(tail[0])] else "other"
  }

  function RowBucket(row: IndexRow): string { LocatorBucket(row.id) }

  function LocatorsOf(rows: seq<IndexRow>): (r: seq<Locator>)
    ensures |r| == |rows|
    ensures forall i :: 0 <= i < |rows| ==> r[i] == Locator(rows[i].id, rows[i].page)
  {
    seq(|rows|, i requires 0 <= i < |rows| => Locator(rows[i].id, rows[i].page))
  }

  function LocatorDocuments(rows: seq<IndexRow>): (r: map<string, seq<Locator>>) {
    map b | b in Keys(RowBucket, rows) :: LocatorsOf(Bucket(RowBucket, rows, b))
  }

  function Pack(report: Report, rows: seq<IndexRow>, details: seq<Detail>): Documents {
    Documents(report, rows, PageMap(details, DETAIL_PAGE), PageMap(rows, FINDINGS_PAGE), LocatorDocuments(rows))
  }

  /** The first `p` pages, which end before `start`. */
  ghost predicate PagesUpTo<T>(s: seq<T>, size: nat, pages: map<nat, seq<T>>, p: nat, start: nat)
    requires size > 0
  {
    && start == p * size && p <= PageCount(|s|, size) && (start >= |s| ==> p == PageCount(|s|, size))
    && (forall q: nat :: q in pages <==> q < p) && (forall q: nat :: q < p ==> pages[q] == Page(s, size, q))
  }

  lemma PageStep<T>(s: seq<T>, size: nat, pages: map<nat, seq<T>>, p: nat, start: nat)
    requires size > 0 && start < |s| && PagesUpTo(s, size, pages, p, start)
    ensures PagesUpTo(s, size, pages[p := s[start..if start + size <= |s| then start + size else |s|]], p + 1, start + size)
  {
    var page := PageOf(|s|, size, start);
    StartPage(p, size);
    PageStart(|s|, size, p);
    NextStart(p, size);
    assert s[start..if start + size <= |s| then start + size else |s|] == Page(s, size, p);
    if start + size >= |s| {
      LastPage(|s|, size, p + 1);
    }
  }

  lemma NextStart(p: nat, size: nat)
    ensures p * size + size == (p + 1) * size
  {
  }

  method WritePages<T>(s: seq<T>, size: nat) returns (pages: map<nat, seq<T>>)
    requires size > 0
    ensures pages == PageMap(s, size)
  {
    pages := map[];
    var start, p := 0, 0;
    while start < |s|
      invariant PagesUpTo(s, size, pages, p, start)
      decreases |s| - start
    {
      PageStep(s, size, pages, p, start);
      pages := pages[p := s[start..if start + size <= |s| then start + size else |s|]];
      start, p := start + size, p + 1;
    }
  }

  lemma StartPage(p: nat, size: nat)
    requires size > 0
    ensures (p * size) / size == p
  {
    var q := (p * size) / size;
    assert p * size == q * size + (p * size) % size;
    MulMonotone(p + 1, q, size);
    MulMonotone(q + 1, p, size);
  }

  lemma LastPage(n: nat, size: nat, p: nat)
    requires size > 0 && p <= PageCount(n, size) && p * size >= n
    ensures p == PageCount(n, size)
  {
    var c := PageCount(n, size);
    assert n + size - 1 == c * size + (n + size - 1) % size;
    MulMonotone(p + 1, c, size);
  }

  // ----- the producer

  function MakeRow(f: Finding, origins: seq<Observation>, position: nat): IndexRow {
    IndexRow(f.stableId, f.severity, f.file, f.startLine, f.families, SortedSet(Rules(origins)), |origins|,
             position / DETAIL_PAGE)
  }

  ghost predicate OriginsKnown(findings: seq<Finding>, observations: seq<Observation>) {
    forall i :: 0 <= i < |findings| ==> forall id :: id in findings[i].observationIds ==> id in Ids(observations)
  }

  function MakeRows(findings: seq<Finding>, byId: map<string, Observation>): (r: seq<IndexRow>)
    requires forall i :: 0 <= i < |findings| ==> forall id :: id in findings[i].observationIds ==> id in byId
    ensures |r| == |findings|
    ensures forall i :: 0 <= i < |findings| ==> r[i] == MakeRow(findings[i], Origins(findings[i].observationIds, byId), i)
  {
    seq(|findings|, i requires 0 <= i < |findings| => MakeRow(findings[i], Origins(findings[i].observationIds, byId), i))
  }

  function MakeDetails(findings: seq<Finding>, byId: map<string, Observation>): (r: seq<Detail>)
    requires forall i :: 0 <= i < |findings| ==> forall id :: id in findings[i].observationIds ==> id in byId
    ensures |r| == |findings|
    ensures forall i :: 0 <= i < |findings| ==>
              r[i] == Detail(MakeRows(findings, byId)[i], Origins(findings[i].observationIds, byId))
  {
    seq(|findings|, i requires 0 <= i < |findings| =>
      Detail(MakeRows(findings, byId)[i], Origins(findings[i].observationIds, byId)))
  }

  /** `partial` as soon as one channel did not complete, or did not run without saying why. */
  function ReportStatus(channels: seq<ChannelRow>): string {
    if exists i :: 0 <= i < |channels|
         && (IsReportIncomplete(channels[i].status) || (IsNotRun(channels[i].status) && channels[i].reason == ""))
    then "partial" else "current"
  }

  function ReportOf(s: Snapshot): Report {
    Report(s.channels, s.findingCount, s.observationCount, ReportStatus(s.channels))
  }

  function BundleOf(s: Snapshot): Documents
    requires NoDup(Ids(s.observations)) && OriginsKnown(AllFindings(s), s.observations)
  {
    Pack(ReportOf(s), MakeRows(AllFindings(s), ById(s.observations)), MakeDetails(AllFindings(s), ById(s.observations)))
  }

  /** What the loop has done for the first findings. */
  ghost predicate Indexed(done: seq<Finding>, observations: seq<Observation>, seen: set<string>, index: seq<IndexRow>, details: seq<Detail>)
    requires NoDup(Ids(observations))
  {
    && NoDup(StableIds(done)) && OriginsKnown(done, observations)
    && (forall id :: id in seen <==> id in StableIds(done))
    && index == MakeRows(done, ById(observations)) && details == MakeDetails(done, ById(observations))
  }

  lemma IndexedNext(done: seq<Finding>, f: Finding, observations: seq<Observation>, seen: set<string>, index: seq<IndexRow>, details: seq<Detail>)
    requires NoDup(Ids(observations)) && Indexed(done, observations, seen, index, details)
    requires f.stableId !in seen && forall k :: 0 <= k < |f.observationIds| ==> f.observationIds[k] in ById(observations)
    ensures forall id :: id in f.observationIds ==> id in ById(observations)
    ensures var byId := ById(observations);
            var row := MakeRow(f, Origins(f.observationIds, byId), |details|);
            Indexed(done + [f], observations, seen + {f.stableId}, index + [row], details + [Detail(row, Origins(f.observationIds, byId))])
  {
    assert StableIds(done + [f]) == StableIds(done) + [f.stableId];
    NoDupAppend(StableIds(done), [f.stableId]);
    IndexSnoc(done, f, ById(observations));
  }

  /** The rows and details of the findings, or the first error met. */
  method MakeIndex(findings: seq<Finding>, observations: seq<Observation>) returns (r: Result<(seq<IndexRow>, seq<Detail>)>)
    requires NoDup(Ids(observations))
    ensures r.Ok? <==> NoDup(StableIds(findings)) && OriginsKnown(findings, observations)
    ensures r.Ok? ==> r.value.0 == MakeRows(findings, ById(observations)) && r.value.1 == MakeDetails(findings, ById(observations))
  {
    var byId := ById(observations);
    var seen: set<string> := {};
    var index: seq<IndexRow>, details: seq<Detail> := [], [];
    for i := 0 to |findings|
      invariant Indexed(findings[..i], observations, seen, index, details)
    {
      var f := findings[i];
      TakeNext(findings, i);
      if f.stableId in seen {
        RepeatedId(findings, i);
        return Err("duplicate canonical identity");
      }
      if exists k :: 0 <= k < |f.observationIds| && f.observationIds[k] !in byId {
        return Err("finding references missing observation");
      }
      IndexedNext(findings[..i], f, observations, seen, index, details);
      var origins := Origins(f.observationIds, byId);
      var row := MakeRow(f, origins, |details|);
      seen, index, details := seen + {f.stableId}, index + [row], details + [Detail(row, origins)];
    }
    TakeAll(findings);
    r := Ok((index, details));
  }

  lemma RepeatedId(findings: seq<Finding>, i: nat)
    requires i < |findings| && findings[i].stableId in StableIds(findings[..i])
    ensures !NoDup(StableIds(findings))
  {
    var j :| 0 <= j < i && StableIds(findings[..i])[j] == findings[i].stableId;
    assert StableIds(findings)[j] == StableIds(findings)[i];
  }

  lemma RowsSnoc(findings: seq<Finding>, f: Finding, byId: map<string, Observation>)
    requires forall i :: 0 <= i < |findings| ==> forall id :: id in findings[i].observationIds ==> id in byId
    requires forall id :: id in f.observationIds ==> id in byId
    ensures MakeRows(findings + [f], byId) == MakeRows(findings, byId) + [MakeRow(f, Origins(f.observationIds, byId), |findings|)]
  {
    var all := findings + [f];
    var rows := MakeRows(findings, byId) + [MakeRow(f, Origins(f.observationIds, byId), |findings|)];
    forall i | 0 <= i < |all| ensures MakeRows(all, byId)[i] == rows[i] {
      assert i < |findings| ==> all[i] == findings[i];
    }
  }

  lemma DetailSnocAt(findings: seq<Finding>, f: Finding, byId: map<string, Observation>, i: nat)
    requires forall i :: 0 <= i < |findings| ==> forall id :: id in findings[i].observationIds ==> id in byId
    requires forall id :: id in f.observationIds ==> id in byId
    requires i <= |findings|
    ensures forall i :: 0 <= i < |findings + [f]| ==> forall id :: id in (findings + [f])[i].observationIds ==> id in byId
    ensures MakeDetails(findings + [f], byId)[i] ==
      if i < |findings| then MakeDetails(findings, byId)[i]
      else Detail(MakeRow(f, Origins(f.observationIds, byId), |findings|), Origins(f.observationIds, byId))
  {
    DetailAt(findings + [f], byId, i);
    if i < |findings| {
      DetailAt(findings, byId, i);
    }
  }

  lemma SameElements<T>(a: seq<T>, b: seq<T>, x: T)
    requires |a| == |b| + 1 && a[|b|] == x && forall i :: 0 <= i < |b| ==> a[i] == b[i]
    ensures a == b + [x]
  {
  }

  lemma IndexSnoc(findings: seq<Finding>, f: Finding, byId: map<string, Observation>)
    requires forall i :: 0 <= i < |findings| ==> forall id :: id in findings[i].observationIds ==> id in byId
    requires forall id :: id in f.observationIds ==> id in byId
    ensures var row := MakeRow(f, Origins(f.observationIds, byId), |findings|);
            && MakeRows(findings + [f], byId) == MakeRows(findings, byId) + [row]
            && MakeDetails(findings + [f], byId)
               == MakeDetails(findings, byId) + [Detail(row, Origins(f.observationIds, byId))]
  {
    RowsSnoc(findings, f, byId);
    forall i | 0 <= i <= |findings| ensures MakeDetails(findings + [f], byId)[i] ==
      if i < |findings| then MakeDetails(findings, byId)[i]
      else Detail(MakeRow(f, Origins(f.observationIds, byId), |findings|), Origins(f.observationIds, byId))
    {
      DetailSnocAt(findings, f, byId, i);
    }
    SameElements(MakeDetails(findings + [f], byId), MakeDetails(findings, byId),
                 Detail(MakeRow(f, Origins(f.observationIds, byId), |findings|), Origins(f.observationIds, byId)));
  }

  lemma DetailAt(findings: seq<Finding>, byId: map<string, Observation>, i: nat)
    requires forall i :: 0 <= i < |findings| ==> forall id :: id in findings[i].observationIds ==> id in byId
    requires i < |findings|
    ensures MakeDetails(findings, byId)[i]
         == Detail(MakeRow(findings[i], Origins(findings[i].observationIds, byId), i), Origins(findings[i].observationIds, byId))
  {
  }

  method BuildDocuments(report: Report, rows: seq<IndexRow>, details: seq<Detail>) returns (d: Documents)
    ensures d == Pack(report, rows, details)
  {
    var detailPages := WritePages(details, DETAIL_PAGE);
    var findingsPages := WritePages(rows, FINDINGS_PAGE);
    var buckets, groups := GroupBy(RowBucket, rows);
    var locators := map b | b in groups :: LocatorsOf(groups[b]);
    d := Documents(report, rows, detailPages, findingsPages, locators);
  }

  /** `hosted.build`: the documents of one snapshot, or the first check that fails. */
  method Build(s: Snapshot) returns (r: Result<Documents>)
    ensures r.Ok? <==> ChannelsAccount(s) && NoDup(Ids(s.observations))
                       && NoDup(StableIds(AllFindings(s))) && OriginsKnown(AllFindings(s), s.observations)
    ensures r.Ok? ==> r.value == BundleOf(s)
  {
    var valid := ValidateSnapshot(s);
    if valid.Err? { return Err(valid.message); }
    if !Distinct(Ids(s.observations)) { return Err("duplicate observation identity"); }
    var index := MakeIndex(AllFindings(s), s.observations);
    if index.Err? { return Err(index.message); }
    var d := BuildDocuments(ReportOf(s), index.value.0, index.value.1);
    r := Ok(d);
  }
}
