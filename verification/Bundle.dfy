/** The independent consumer: `validate_bundle` over the documents of a report, whatever
    order the file system lists the detail pages in. */
module Bundle {
  import opened Sequences
  import opened Paging
  import opened Text
  import opened Grouping
  import opened Canonical
  import opened CanonicalTheorems
  import opened Accounting
  import opened Hosted

  /** The detail pages in the order a directory listing yields them. */
  ghost predicate IsListing(d: Documents, listing: seq<nat>) {
    NoDup(listing) && forall p: nat :: p in listing <==> p in d.details
  }

  function PageReader(d: Documents): nat -> seq<Detail> {
    p => if p in d.details then d.details[p] else []
  }

  function AllDetails(d: Documents, listing: seq<nat>): seq<Detail> {
    Flatten(Map(PageReader(d), listing))
  }

  /** Everything `validate_bundle` checks. */
  ghost predicate BundleAccepted(d: Documents, details: seq<Detail>) {
    && |d.findings| == d.report.findingCount
    && NoDup(RowIds(d.findings))
    && |details| == |d.findings| && (forall id :: id in DetailIds(details) <==> id in RowIds(d.findings))
    && |Flatten(ChannelIds(d.report.channels))| == d.report.observationCount
    && NoDup(Flatten(ChannelIds(d.report.channels)))
    && (forall id :: id in Flatten(ChannelIds(d.report.channels)) <==> id in Flatten(OriginIds(details)))
  }

  predicate SameMembers(a: seq<string>, b: seq<string>) {
    Covers(a, b) && Covers(b, a)
  }

  lemma SameMembersMeans(a: seq<string>, b: seq<string>)
    ensures SameMembers(a, b) <==> forall x :: x in a <==> x in b
  {
    if SameMembers(a, b) {
      forall x ensures x in a <==> x in b {
        if x in a { var i :| 0 <= i < |a| && a[i] == x; }
        if x in b { var i :| 0 <= i < |b| && b[i] == x; }
      }
    }
  }

  method ReadDetails(d: Documents, listing: seq<nat>) returns (details: seq<Detail>)
    requires IsListing(d, listing)
    ensures details == AllDetails(d, listing)
  {
    details := [];
    for i := 0 to |listing|
      invariant details == Flatten(Map(PageReader(d), listing)[..i])
    {
      TakeNext(Map(PageReader(d), listing), i);
      FlattenAppend(Map(PageReader(d), listing)[..i], PageReader(d)(listing[i]));
      assert listing[i] in listing;
      details := details + d.details[listing[i]];
    }
    TakeAll(Map(PageReader(d), listing));
  }

  predicate DetailsReconcile(d: Documents, details: seq<Detail>) {
    |details| == |d.findings| && SameMembers(DetailIds(details), RowIds(d.findings))
  }

  predicate OriginsReconcile(d: Documents, listed: seq<string>, origins: seq<string>) {
    |listed| == d.report.observationCount && Distinct(listed) && SameMembers(listed, origins)
  }

  /** What acceptance comes to, as the code computes it. */
  lemma AcceptedMeans(d: Documents, details: seq<Detail>)
    ensures BundleAccepted(d, details)
       <==> (&& |d.findings| == d.report.findingCount && Distinct(RowIds(d.findings)) && DetailsReconcile(d, details)
             && OriginsReconcile(d, Flatten(ChannelIds(d.report.channels)), Flatten(OriginIds(details))))
  {
    SameMembersMeans(DetailIds(details), RowIds(d.findings));
    SameMembersMeans(Flatten(ChannelIds(d.report.channels)), Flatten(OriginIds(details)));
  }

  method ValidateBundle(d: Documents, listing: seq<nat>) returns (r: Result<()>)
    requires IsListing(d, listing)
    ensures r.Ok? <==> BundleAccepted(d, AllDetails(d, listing))
  {
    if |d.findings| != d.report.findingCount { return Err("hosted finding count does not reconcile"); }
    if !Distinct(RowIds(d.findings)) { return Err("duplicate hosted finding identity"); }
    var details := ReadDetails(d, listing);
    AcceptedMeans(d, details);
    if !DetailsReconcile(d, details) {
      return Err("hosted detail pages do not reconcile");
    }
    if !OriginsReconcile(d, Flatten(ChannelIds(d.report.channels)), Flatten(OriginIds(details))) {
      return Err("hosted observation provenance does not reconcile");
    }
    r := Ok(());
  }

  // ----- packed documents

  /** The detail pages, in any listing order, hold exactly the packed details. */
  lemma ListedDetails(report: Report, rows: seq<IndexRow>, details: seq<Detail>, listing: seq<nat>)
    requires IsListing(Pack(report, rows, details), listing)
    ensures multiset(AllDetails(Pack(report, rows, details), listing)) == multiset(details)
  {
    ReadInAnyOrder(PageReader(Pack(report, rows, details)), details, DETAIL_PAGE, listing);
  }

  /** Rows and details describe the same findings, in the same order. */
  ghost predicate Aligned(rows: seq<IndexRow>, details: seq<Detail>) {
    |rows| == |details| && forall i :: 0 <= i < |rows| ==> details[i].row.id == rows[i].id && rows[i].page == i / DETAIL_PAGE
  }

  lemma DetailIdsPermute(a: seq<Detail>, b: seq<Detail>)
    requires multiset(a) == multiset(b)
    ensures |a| == |b|
    ensures forall id :: id in DetailIds(a) <==> id in DetailIds(b)
    ensures forall id :: id in Flatten(OriginIds(a)) <==> id in Flatten(OriginIds(b))
  {
    PermutationMembers(a, b);
    forall id ensures id in DetailIds(a) <==> id in DetailIds(b) {
      DetailIdMeans(a, id);
      DetailIdMeans(b, id);
    }
    forall id ensures id in Flatten(OriginIds(a)) <==> id in Flatten(OriginIds(b)) {
      OriginIdMeans(a, id);
      OriginIdMeans(b, id);
    }
  }

  lemma DetailIdMeans(details: seq<Detail>, id: string)
    ensures id in DetailIds(details) <==> exists d :: d in details && d.row.id == id
  {
    if id in DetailIds(details) {
      var i :| 0 <= i < |details| && DetailIds(details)[i] == id;
      assert details[i] in details;
    }
    if d :| d in details && d.row.id == id {
      var i :| 0 <= i < |details| && details[i] == d;
      assert DetailIds(details)[i] == id;
    }
  }

  lemma OriginIdMeans(details: seq<Detail>, id: string)
    ensures id in Flatten(OriginIds(details)) <==> exists d :: d in details && id in Ids(d.origins)
  {
    FlattenMembers(OriginIds(details));
    if id in Flatten(OriginIds(details)) {
      var i :| 0 <= i < |details| && id in OriginIds(details)[i];
      assert details[i] in details;
    }
    if d :| d in details && id in Ids(d.origins) {
      var i :| 0 <= i < |details| && details[i] == d;
      assert id in OriginIds(details)[i];
    }
  }

  lemma ListedParts(report: Report, rows: seq<IndexRow>, details: seq<Detail>, all: seq<Detail>)
    requires Aligned(rows, details) && multiset(all) == multiset(details)
    ensures |all| == |rows| && (forall id :: id in DetailIds(all) <==> id in RowIds(rows))
    ensures forall id :: id in Flatten(OriginIds(all)) <==> id in Flatten(OriginIds(details))
  {
    DetailIdsPermute(all, details);
    assert DetailIds(details) == RowIds(rows);
  }

  lemma AcceptedParts(d: Documents, all: seq<Detail>, details: seq<Detail>)
    requires |all| == |d.findings| && (forall id :: id in DetailIds(all) <==> id in RowIds(d.findings))
    requires forall id :: id in Flatten(OriginIds(all)) <==> id in Flatten(OriginIds(details))
    ensures BundleAccepted(d, all)
       <==> (&& |d.findings| == d.report.findingCount && NoDup(RowIds(d.findings))
             && |Flatten(ChannelIds(d.report.channels))| == d.report.observationCount
             && Partitions(ChannelIds(d.report.channels), Flatten(OriginIds(details))))
  {
  }

  /** Packed documents are accepted exactly when their rows, details and channels account
      for the same findings and the same observations. */
  lemma PackAcceptedExact(report: Report, rows: seq<IndexRow>, details: seq<Detail>, listing: seq<nat>)
    requires Aligned(rows, details) && IsListing(Pack(report, rows, details), listing)
    ensures BundleAccepted(Pack(report, rows, details), AllDetails(Pack(report, rows, details), listing))
       <==> (&& |rows| == report.findingCount && NoDup(RowIds(rows))
             && |Flatten(ChannelIds(report.channels))| == report.observationCount
             && Partitions(ChannelIds(report.channels), Flatten(OriginIds(details))))
  {
    var d := Pack(report, rows, details);
    var all := AllDetails(d, listing);
    ListedDetails(report, rows, details, listing);
    ListedParts(report, rows, details, all);
    AcceptedParts(d, all, details);
  }

  // ----- loading boundaries

  /** Following a finding's locator to its detail page finds the finding's detail. */
  ghost predicate LocatorLeadsHome(d: Documents, id: string) {
    && LocatorBucket(id) in d.locators
    && (exists l :: l in d.locators[LocatorBucket(id)] && l.id == id)
    && (forall b, l :: b in d.locators && l in d.locators[b] && l.id == id ==>
          b == LocatorBucket(id) && l.detailPage in d.details
          && exists detail :: detail in d.details[l.detailPage] && detail.row.id == id)
  }

  lemma RowLocator(rows: seq<IndexRow>, row: IndexRow)
    requires row in rows
    ensures RowBucket(row) in LocatorDocuments(rows)
    ensures Locator(row.id, row.page) in LocatorDocuments(rows)[RowBucket(row)]
  {
    KeysMembers(RowBucket, rows);
    BucketMembers(RowBucket, rows, RowBucket(row));
    assert Occupied(RowBucket, rows, RowBucket(row));
    var own := Bucket(RowBucket, rows, RowBucket(row));
    assert row in own;
    var i :| 0 <= i < |own| && own[i] == row;
    assert LocatorsOf(own)[i] == Locator(row.id, row.page);
  }

  lemma LocatorRow(rows: seq<IndexRow>, bucket: string, l: Locator) returns (row: IndexRow)
    requires bucket in LocatorDocuments(rows) && l in LocatorDocuments(rows)[bucket]
    ensures row in rows && l == Locator(row.id, row.page) && RowBucket(row) == bucket
  {
    var own := Bucket(RowBucket, rows, bucket);
    var i :| 0 <= i < |own| && LocatorsOf(own)[i] == l;
    BucketMembers(RowBucket, rows, bucket);
    row := own[i];
    assert row in own;
  }

  /** Every finding of the index is found through its locator, and only there. */
  lemma LocatorsLeadHome(report: Report, rows: seq<IndexRow>, details: seq<Detail>, id: string)
    requires Aligned(rows, details) && id in RowIds(rows)
    ensures LocatorLeadsHome(Pack(report, rows, details), id)
  {
    var d := Pack(report, rows, details);
    var i :| 0 <= i < |rows| && RowIds(rows)[i] == id;
    RowLocator(rows, rows[i]);
    forall b, l | b in d.locators && l in d.locators[b] && l.id == id
      ensures b == LocatorBucket(id) && l.detailPage in d.details
      ensures exists detail :: detail in d.details[l.detailPage] && detail.row.id == id
    {
      var row := LocatorRow(rows, b, l);
      var k :| 0 <= k < |rows| && rows[k] == row;
      ElementOnPage(details, DETAIL_PAGE, k);
      assert details[k] in d.details[l.detailPage];
    }
  }

  function FindingsReader(d: Documents): nat -> seq<IndexRow> {
    p => if p in d.findingsPages then d.findingsPages[p] else []
  }

  /** The finding pages are numbered from zero and, read in order, are the index. */
  lemma FindingPagesAreIndex(report: Report, rows: seq<IndexRow>, details: seq<Detail>)
    ensures var d := Pack(report, rows, details); var n := PageCount(|rows|, FINDINGS_PAGE);
            (forall p: nat :: p in d.findingsPages <==> p < n) && Flatten(Map(FindingsReader(d), Upto(n))) == rows
  {
    ReadInOrder(FindingsReader(Pack(report, rows, details)), rows, FINDINGS_PAGE);
  }
}
