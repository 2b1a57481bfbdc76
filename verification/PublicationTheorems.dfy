/** Crash safety of publication: after every storage call of every sequence of runs, whatever the
    manifest refers to is stored and reads back unchanged, and the current report is never lost. */
module PublicationTheorems {
  import opened Sequences
  import opened Ordering
  import opened Text
  import opened Shard
  import opened ShardTheorems
  import opened Publication

  type Documents = map<string, string>

  // ----- what the manifest refers to is stored

  /** The shards hold exactly these documents. */
  ghost predicate Holding(c: Codec, blobs: map<string, Bytes>, documents: map<string, string>, assets: map<string, Meta>, docs: seq<Document>) {
    && NoDup(Paths(docs)) && assets.Keys <= blobs.Keys
    && Recovers(c, docs, Manifest(documents, assets), Restrict(blobs, assets.Keys))
  }

  ghost predicate Backed(c: Codec, good: Documents -> bool, blobs: map<string, Bytes>, documents: map<string, string>, assets: map<string, Meta>) {
    exists docs :: Holding(c, blobs, documents, assets, docs) && good(AsMap(docs))
  }

  ghost predicate BundleStored(c: Codec, blobs: map<string, Bytes>, bundle: BundleRef) {
    bundle.asset in blobs && bundle == RefOf(c, blobs[bundle.asset])
  }

  ghost predicate EntryStored(c: Codec, good: Documents -> bool, blobs: map<string, Bytes>, e: Entry) {
    Backed(c, good, blobs, e.documents, e.assets) && (e.bundle.Some? ==> BundleStored(c, blobs, e.bundle.value))
  }

  predicate Any(documents: Documents) { true }

  ghost predicate OverlayStored(c: Codec, blobs: map<string, Bytes>, overlay: Option<Overlay>) {
    overlay.Some? ==> Backed(c, Any, blobs, overlay.value.documents, overlay.value.assets)
  }

  ghost predicate Holds(c: Codec, good: Documents -> bool, blobs: map<string, Bytes>, m: Current) {
    && (forall i :: 0 <= i < |m.targets| ==> EntryStored(c, good, blobs, m.targets[i]))
    && OverlayStored(c, blobs, m.overlay)
  }

  /** At most one target, and it is the current one. */
  predicate Single(m: Current) {
    |m.targets| == 0 || (|m.targets| == 1 && Some(m.targets[0].id) == m.currentId == m.targets[0].canonicalId)
  }

  ghost predicate Sound(c: Codec, good: Documents -> bool, s: Store) {
    Holds(c, good, s.blobs, s.manifest) && Single(s.manifest)
  }

  // ----- reading back

  /** The documents among those that lie in the assets read so far. */
  ghost predicate ReadSoFar(docs: seq<Document>, documents: map<string, string>, names: seq<string>, r: Documents) {
    forall path :: (path in r <==> path in documents && documents[path] in names)
      && (path in r ==> path in AsMap(docs) && r[path] == AsMap(docs)[path])
  }

  lemma AssetReads(c: Codec, blobs: map<string, Bytes>, documents: map<string, string>, assets: map<string, Meta>, docs: seq<Document>, name: string)
    requires Holding(c, blobs, documents, assets, docs) && name in assets
    ensures name in blobs && VerifyAsset(c, name, blobs[name], assets[name]).Ok?
    ensures var more := VerifyAsset(c, name, blobs[name], assets[name]).value;
            forall path :: (path in more <==> path in documents && documents[path] == name)
              && (path in more ==> path in AsMap(docs) && more[path] == AsMap(docs)[path])
  {
    var stored, m := Restrict(blobs, assets.Keys), Manifest(documents, assets);
    assert name in stored;
    AsMapFacts(docs);
    var more := VerifyAsset(c, name, blobs[name], assets[name]).value;
    forall path
      ensures path in more <==> path in documents && documents[path] == name
      ensures path in more ==> path in AsMap(docs) && more[path] == AsMap(docs)[path]
    {
      if path in documents && documents[path] == name {
        PathOf(docs, path);
        var d :| d in docs && d.path == path;
        assert Located(c, d, m, stored);
      }
    }
  }

  lemma {:induction false} LoadReads(c: Codec, blobs: map<string, Bytes>, documents: map<string, string>, assets: map<string, Meta>,
                                     docs: seq<Document>, names: seq<string>)
    requires Holding(c, blobs, documents, assets, docs)
    requires forall i :: 0 <= i < |names| ==> names[i] in assets
    ensures var r := LoadFrom(c, blobs, assets, names); r.Some? && ReadSoFar(docs, documents, names, r.value)
  {
    if names != [] {
      var front, name := names[..|names| - 1], names[|names| - 1];
      LoadReads(c, blobs, documents, assets, docs, front);
      AssetReads(c, blobs, documents, assets, docs, name);
      assert forall x :: x in names <==> x in front || x == name;
    }
  }

  lemma SameMap(a: Documents, b: Documents)
    requires forall path :: (path in a <==> path in b) && (path in a ==> a[path] == b[path])
    ensures a == b
  {
  }

  lemma HoldingPath(c: Codec, blobs: map<string, Bytes>, documents: map<string, string>, assets: map<string, Meta>, docs: seq<Document>, path: string)
    requires Holding(c, blobs, documents, assets, docs)
    ensures path in AsMap(docs) <==> path in documents && documents[path] in assets
  {
    AsMapFacts(docs);
    if path in AsMap(docs) {
      PathOf(docs, path);
      var d :| d in docs && d.path == path;
      assert Located(c, d, Manifest(documents, assets), Restrict(blobs, assets.Keys));
    }
  }

  /** Whatever order the assets are read in, the stored report loads as the documents it was made of. */
  lemma LoadRecovers(c: Codec, blobs: map<string, Bytes>, documents: map<string, string>, assets: map<string, Meta>,
                     docs: seq<Document>, r: Option<Documents>)
    requires Holding(c, blobs, documents, assets, docs) && Loaded(c, blobs, assets, r)
    ensures r == Some(AsMap(docs))
  {
    var names :| Lists(names, assets.Keys) && r == LoadFrom(c, blobs, assets, names);
    LoadReads(c, blobs, documents, assets, docs, names);
    forall path ensures path in r.value <==> path in AsMap(docs) {
      HoldingPath(c, blobs, documents, assets, docs, path);
    }
    SameMap(r.value, AsMap(docs));
  }

  // ----- uploads and deletions that touch nothing the manifest refers to

  /** The named blobs stay as they are. */
  ghost predicate Steady(before: map<string, Bytes>, after: map<string, Bytes>, names: set<string>) {
    forall name :: name in names && name in before ==> name in after && after[name] == before[name]
  }

  lemma BackedSteady(c: Codec, good: Documents -> bool, before: map<string, Bytes>, after: map<string, Bytes>,
                     documents: map<string, string>, assets: map<string, Meta>)
    requires Backed(c, good, before, documents, assets) && Steady(before, after, assets.Keys)
    ensures Backed(c, good, after, documents, assets)
  {
    var docs :| Holding(c, before, documents, assets, docs) && good(AsMap(docs));
    assert Restrict(before, assets.Keys) == Restrict(after, assets.Keys);
    assert Holding(c, after, documents, assets, docs);
  }

  lemma TargetRefs(m: Current, i: nat)
    requires i < |m.targets|
    ensures m.targets[i].assets.Keys <= AssetRefs(m)
    ensures m.targets[i].bundle.Some? ==> m.targets[i].bundle.value.asset in ExportRefs(m)
  {
  }

  lemma HoldsSteady(c: Codec, good: Documents -> bool, before: map<string, Bytes>, after: map<string, Bytes>, m: Current)
    requires Holds(c, good, before, m) && Steady(before, after, Refs(m))
    ensures Holds(c, good, after, m)
  {
    forall i | 0 <= i < |m.targets| ensures EntryStored(c, good, after, m.targets[i]) {
      TargetRefs(m, i);
      assert EntryStored(c, good, before, m.targets[i]);
      BackedSteady(c, good, before, after, m.targets[i].documents, m.targets[i].assets);
    }
    if m.overlay.Some? {
      BackedSteady(c, Any, before, after, m.overlay.value.documents, m.overlay.value.assets);
    }
  }

  lemma BackedAddressed(c: Codec, good: Documents -> bool, blobs: map<string, Bytes>, documents: map<string, string>, assets: map<string, Meta>, name: string)
    requires Backed(c, good, blobs, documents, assets) && name in assets
    ensures name in blobs && name == AssetName(c, blobs[name])
  {
    var docs :| Holding(c, blobs, documents, assets, docs) && good(AsMap(docs));
    AssetReads(c, blobs, documents, assets, docs, name);
  }

  /** A blob under a content-addressed name. */
  predicate Addressed(c: Codec, name: string, data: Bytes) {
    name == AssetName(c, data) || name == BundleName(c, data)
  }

  lemma RefAddressed(c: Codec, good: Documents -> bool, blobs: map<string, Bytes>, m: Current, name: string)
    requires Holds(c, good, blobs, m) && name in Refs(m)
    ensures name in blobs && Addressed(c, name, blobs[name])
  {
    if name in OverlayAssets(m) {
      BackedAddressed(c, Any, blobs, m.overlay.value.documents, m.overlay.value.assets, name);
    } else if name in AssetRefs(m) {
      var i :| 0 <= i < |m.targets| && name in m.targets[i].assets;
      assert EntryStored(c, good, blobs, m.targets[i]);
      BackedAddressed(c, good, blobs, m.targets[i].documents, m.targets[i].assets, name);
    } else {
      var i :| 0 <= i < |m.targets| && m.targets[i].bundle.Some? && m.targets[i].bundle.value.asset == name;
      assert EntryStored(c, good, blobs, m.targets[i]);
    }
  }

  lemma BundleNameTellsData(c: Codec, a: Bytes, b: Bytes)
    requires CodecLaws(c) && BundleName(c, a) == BundleName(c, b)
    ensures a == b
  {
    var s, t := BundleName(c, a), BundleName(c, b);
    assert |s| == 6 + |c.sha(a)| + 4 && |t| == 6 + |c.sha(b)| + 4;
    assert s[6..6 + |c.sha(a)|] == c.sha(a);
    assert t[6..6 + |c.sha(b)|] == c.sha(b);
  }

  lemma SameAddressSameData(c: Codec, name: string, a: Bytes, b: Bytes)
    requires CodecLaws(c) && Addressed(c, name, a) && Addressed(c, name, b)
    ensures a == b
  {
    KindsDiffer(c, a, b);
    KindsDiffer(c, b, a);
    if name == AssetName(c, a) {
      NameTellsData(c, a, b);
    } else {
      BundleNameTellsData(c, a, b);
    }
  }

  ghost predicate AllAddressed(c: Codec, data: map<string, Bytes>) {
    forall name :: name in data ==> Addressed(c, name, data[name])
  }

  /** Uploads of content-addressed blobs overwrite nothing that is in use. */
  lemma {:induction false} PutsKeep(c: Codec, good: Documents -> bool, s: Store, puts: seq<Effect>, data: map<string, Bytes>)
    requires CodecLaws(c) && Holds(c, good, s.blobs, s.manifest) && PutsFrom(puts, data) && AllAddressed(c, data)
    ensures Holds(c, good, ApplyAll(s, puts).blobs, s.manifest) && ApplyAll(s, puts).manifest == s.manifest
  {
    if puts != [] {
      var front, e := puts[..|puts| - 1], puts[|puts| - 1];
      PutsKeep(c, good, s, front, data);
      var before := ApplyAll(s, front).blobs;
      forall name | name in Refs(s.manifest) && name in before && name == e.name ensures before[name] == e.data {
        RefAddressed(c, good, before, s.manifest, name);
        SameAddressSameData(c, name, before[name], e.data);
      }
      HoldsSteady(c, good, before, ApplyAll(s, puts).blobs, s.manifest);
    }
  }

  /** Deletions of unreferenced names remove nothing that is in use. */
  lemma {:induction false} DeletesKeep(c: Codec, good: Documents -> bool, s: Store, deletes: seq<Effect>, gone: set<string>)
    requires Holds(c, good, s.blobs, s.manifest) && DeletesOf(deletes, gone) && gone !! Refs(s.manifest)
    ensures Holds(c, good, ApplyAll(s, deletes).blobs, s.manifest) && ApplyAll(s, deletes).manifest == s.manifest
  {
    if deletes != [] {
      var front := deletes[..|deletes| - 1];
      DeletesKeep(c, good, s, front, gone);
      HoldsSteady(c, good, ApplyAll(s, front).blobs, ApplyAll(s, deletes).blobs, s.manifest);
    }
  }

  lemma {:induction false} PutsStored(s: Store, puts: seq<Effect>, data: map<string, Bytes>, name: string)
    requires PutsFrom(puts, data) && name in data && Put(name, data[name]) in puts
    ensures name in ApplyAll(s, puts).blobs && ApplyAll(s, puts).blobs[name] == data[name]
  {
    var front, e := puts[..|puts| - 1], puts[|puts| - 1];
    if e.name != name {
      assert Put(name, data[name]) in front;
      PutsStored(s, front, data, name);
    }
  }

  // ----- what a run ships

  /** What a collected report must be like, for the channels that were selected. */
  type Arrival = (Documents, seq<string>) -> bool

  /** The merge and the derived documents yield dictionaries, and good reports from good reports
      and acceptable arrivals. */
  ghost predicate Tidy(t: Tools, good: Documents -> bool, arriving: Arrival) {
    && (forall docs, selected :: NoDup(Paths(docs)) && arriving(AsMap(docs), selected) ==>
          NoDup(Paths(t.finish(docs))) && good(AsMap(t.finish(docs))))
    && (forall previous, docs, selected ::
          NoDup(Paths(docs)) && good(previous) && arriving(AsMap(docs), selected) && t.merge(previous, docs, selected).Some? ==>
            var merged := t.finish(t.merge(previous, docs, selected).value.0);
            NoDup(Paths(merged)) && good(AsMap(merged)))
  }

  ghost predicate GoodRow(arriving: Arrival, row: Row) {
    Bare(row) && (row.outcome.Collected? ==> NoDup(Paths(row.outcome.documents)) && arriving(AsMap(row.outcome.documents), row.selected))
  }

  ghost predicate GoodRows(arriving: Arrival, rows: seq<Row>) {
    forall i :: 0 <= i < |rows| ==> GoodRow(arriving, rows[i])
  }

  lemma RestrictAll(assets: map<string, Bytes>)
    ensures Restrict(assets, assets.Keys) == assets
  {
  }

  lemma ShippedBacked(t: Tools, good: Documents -> bool, docs: seq<Document>, m: Manifest, assets: map<string, Bytes>)
    requires CodecLaws(t.codec) && NoDup(Paths(docs)) && good(AsMap(docs))
    requires Shardable(t.codec, docs, REPORT_ASSET_LIMIT) && Ships(t, docs, m, assets)
    ensures Backed(t.codec, good, assets, m.documents, m.assets) && m.assets.Keys == assets.Keys
  {
    var pieces :| ShardedAs(t.codec, REPORT_ASSET_LIMIT, docs, pieces, m, assets);
    forall d | d in docs ensures SafePath(d.path) {
      assert Deliverable(t.codec, Min(REPORT_ASSET_LIMIT, ASSET_LIMIT), d);
    }
    ShardRoundTrip(t.codec, REPORT_ASSET_LIMIT, docs, pieces, m, assets);
    RestrictAll(assets);
    assert m == Manifest(m.documents, m.assets);
    assert Holding(t.codec, assets, m.documents, m.assets, docs);
  }

  /** The entry's report is the stored one that it was carried over from. */
  ghost predicate CarriedOver(m: Current, e: Entry) {
    exists i :: 0 <= i < |m.targets| && SameReport(m.targets[i], e)
  }

  predicate SameReport(a: Entry, b: Entry) {
    a.documents == b.documents && a.assets == b.assets && a.bundle == b.bundle
  }

  /** The entry's report was made in this run: everything it refers to waits to be uploaded. */
  ghost predicate Fresh(c: Codec, good: Documents -> bool, row: Row, o: Output) {
    && row.outcome.Collected? && o.entry.analyzedSha == Some(row.outcome.analyzedSha)
    && o.entry.collectedRun == Some(RunKey(row.entry)) && o.entry.headSha == row.entry.headSha
    && Backed(c, good, o.assets, o.entry.documents, o.entry.assets) && o.entry.assets.Keys == o.assets.Keys
    && o.entry.bundle.Some? && o.exports.Keys == {o.entry.bundle.value.asset} && BundleStored(c, o.exports, o.entry.bundle.value)
  }

  ghost predicate OverlayFresh(c: Codec, o: Output) {
    o.overlay.Some? ==> Backed(c, Any, o.assets, o.overlay.value.documents, o.overlay.value.assets)
                        && o.overlay.value.assets.Keys == o.assets.Keys
  }

  lemma {:induction false} FindLastIn(targets: seq<Entry>, id: string)
    ensures FindLast(targets, id).Some? ==> exists i :: 0 <= i < |targets| && targets[i] == FindLast(targets, id).value
  {
    if targets != [] && targets[|targets| - 1].id != id {
      FindLastIn(targets[..|targets| - 1], id);
    }
  }

  lemma {:induction false} FirstNamedIn(targets: seq<Entry>, currentId: Option<string>)
    ensures FirstNamed(targets, currentId).Some? ==> exists i :: 0 <= i < |targets| && targets[i] == FirstNamed(targets, currentId).value
  {
    if targets != [] && !Names(targets[0], currentId) {
      FirstNamedIn(targets[1..], currentId);
      if FirstNamed(targets, currentId).Some? {
        var i :| 0 <= i < |targets[1..]| && targets[1..][i] == FirstNamed(targets, currentId).value;
        assert targets[i + 1] == FirstNamed(targets, currentId).value;
      }
    }
  }

  lemma PriorIn(m: Current)
    ensures PriorCurrent(m).Some? ==> exists i :: 0 <= i < |m.targets| && m.targets[i] == PriorCurrent(m).value
  {
    FirstNamedIn(m.targets, m.currentId);
  }

  lemma OldIn(m: Current, row: Row)
    ensures OldFor(m, row).Some? ==> exists i :: 0 <= i < |m.targets| && m.targets[i] == OldFor(m, row).value
  {
    FindLastIn(m.targets, row.entry.id);
    PriorIn(m);
  }

  lemma BegunReport(row: Row, former: Option<Entry>)
    requires Bare(row)
    ensures former.Some? ==> SameReport(Begin(row, former), former.value)
    ensures former.None? ==> Begin(row, former).assets == map[]
    ensures Begin(row, former).headSha == row.entry.headSha
  {
  }

  lemma LoadedGood(t: Tools, good: Documents -> bool, s: Store, former: Option<Entry>, loaded: Option<Documents>)
    requires Sound(t.codec, good, s)
    requires former.Some? && (exists i :: 0 <= i < |s.manifest.targets| && s.manifest.targets[i] == former.value)
    requires Loaded(t.codec, s.blobs, former.value.assets, loaded)
    ensures loaded.Some? && good(loaded.value)
  {
    var i :| 0 <= i < |s.manifest.targets| && s.manifest.targets[i] == former.value;
    assert EntryStored(t.codec, good, s.blobs, s.manifest.targets[i]);
    var docs :| Holding(t.codec, s.blobs, former.value.documents, former.value.assets, docs) && good(AsMap(docs));
    LoadRecovers(t.codec, s.blobs, former.value.documents, former.value.assets, docs, loaded);
  }

  ghost predicate GoodVerdict(good: Documents -> bool, verdict: Verdict) {
    verdict.Report? ==> NoDup(Paths(verdict.documents)) && good(AsMap(verdict.documents))
  }

  lemma FinishedGood(t: Tools, good: Documents -> bool, arriving: Arrival, docs: seq<Document>, selected: seq<string>)
    requires Tidy(t, good, arriving) && NoDup(Paths(docs)) && arriving(AsMap(docs), selected)
    ensures NoDup(Paths(t.finish(docs))) && good(AsMap(t.finish(docs)))
  {
  }

  lemma MergedGood(t: Tools, good: Documents -> bool, arriving: Arrival, previous: Documents, docs: seq<Document>, selected: seq<string>)
    requires Tidy(t, good, arriving) && good(previous) && NoDup(Paths(docs)) && arriving(AsMap(docs), selected)
    requires t.merge(previous, docs, selected).Some?
    ensures GoodVerdict(good, Report(t.finish(t.merge(previous, docs, selected).value.0), t.merge(previous, docs, selected).value.1))
  {
  }

  lemma JudgedFrom(t: Tools, good: Documents -> bool, arriving: Arrival, row: Row, former: Option<Entry>, loaded: Option<Documents>)
    requires Tidy(t, good, arriving) && GoodRow(arriving, row) && row.outcome.Collected?
    requires SameRevision(row, former) ==> loaded.Some? && good(loaded.value)
    ensures GoodVerdict(good, Judge(t, row, former, loaded))
  {
    var documents := row.outcome.documents;
    if SameRevision(row, former) {
      if t.merge(loaded.value, documents, row.selected).Some? {
        MergedGood(t, good, arriving, loaded.value, documents, row.selected);
      }
    } else {
      FinishedGood(t, good, arriving, documents, row.selected);
    }
  }

  lemma JudgedGood(t: Tools, good: Documents -> bool, arriving: Arrival, s: Store, row: Row, loaded: Option<Documents>)
    requires Tidy(t, good, arriving) && Sound(t.codec, good, s) && GoodRow(arriving, row)
    requires var former := OldFor(s.manifest, row);
             Loaded(t.codec, s.blobs, if former.Some? then former.value.assets else map[], loaded)
    ensures GoodVerdict(good, Judge(t, row, OldFor(s.manifest, row), loaded))
  {
    var former := OldFor(s.manifest, row);
    OldIn(s.manifest, row);
    if former.Some? {
      LoadedGood(t, good, s, former, loaded);
    }
    if row.outcome.Collected? {
      JudgedFrom(t, good, arriving, row, former, loaded);
    }
  }

  lemma ReviewFresh(t: Tools, row: Row, begun: Entry, document: Document, o: Output)
    requires CodecLaws(t.codec) && Delivered(t, row, begun, Review(document), o)
    ensures OverlayFresh(t.codec, o) && !IsValid(o.entry)
  {
    if Shardable(t.codec, [document], REPORT_ASSET_LIMIT) {
      ShippedBacked(t, Any, [document], Manifest(o.overlay.value.documents, o.overlay.value.assets), o.assets);
    }
  }

  lemma BundleFresh(c: Codec, data: Bytes, exports: map<string, Bytes>)
    requires exports == map[BundleName(c, data) := data]
    ensures exports.Keys == {RefOf(c, data).asset} && BundleStored(c, exports, RefOf(c, data))
  {
  }

  lemma ReportFresh(t: Tools, good: Documents -> bool, row: Row, begun: Entry, documents: seq<Document>, status: string, o: Output)
    requires CodecLaws(t.codec) && GoodVerdict(good, Report(documents, status)) && Delivered(t, row, begun, Report(documents, status), o)
    requires begun.headSha == row.entry.headSha
    ensures OverlayFresh(t.codec, o) && (IsValid(o.entry) ==> Fresh(t.codec, good, row, o))
  {
    if row.outcome.Collected? && Shardable(t.codec, documents, REPORT_ASSET_LIMIT) {
      ShippedBacked(t, good, documents, Manifest(o.entry.documents, o.entry.assets), o.assets);
      BundleFresh(t.codec, t.bundle(documents), o.exports);
    }
  }

  lemma DeliveredFresh(t: Tools, good: Documents -> bool, row: Row, begun: Entry, verdict: Verdict, o: Output)
    requires CodecLaws(t.codec) && GoodVerdict(good, verdict) && Delivered(t, row, begun, verdict, o) && begun.headSha == row.entry.headSha
    ensures OverlayFresh(t.codec, o)
    ensures IsValid(o.entry) ==> Fresh(t.codec, good, row, o)
  {
    match verdict
    case Rejected =>
    case Review(document) => ReviewFresh(t, row, begun, document, o);
    case Report(documents, status) => ReportFresh(t, good, row, begun, documents, status, o);
  }

  /** A valid entry either keeps a published report or brings a fresh one. */
  ghost predicate WellMade(c: Codec, good: Documents -> bool, m: Current, row: Row, o: Output) {
    OverlayFresh(c, o) && (IsValid(o.entry) ==> CarriedOver(m, o.entry) || (Due(row, OldFor(m, row)) && Fresh(c, good, row, o)))
  }

  lemma DueWellMade(t: Tools, good: Documents -> bool, arriving: Arrival, s: Store, row: Row, o: Output, loaded: Option<Documents>)
    requires CodecLaws(t.codec) && Tidy(t, good, arriving) && Sound(t.codec, good, s) && GoodRow(arriving, row)
    requires var former := OldFor(s.manifest, row);
             && Loaded(t.codec, s.blobs, if former.Some? then former.value.assets else map[], loaded)
             && Delivered(t, row, Begin(row, former), Judge(t, row, former, loaded), o) && Begin(row, former).headSha == row.entry.headSha
    ensures OverlayFresh(t.codec, o) && (IsValid(o.entry) ==> Fresh(t.codec, good, row, o))
  {
    var former := OldFor(s.manifest, row);
    JudgedGood(t, good, arriving, s, row, loaded);
    DeliveredFresh(t, good, row, Begin(row, former), Judge(t, row, former, loaded), o);
  }

  lemma EntryWellMade(t: Tools, good: Documents -> bool, arriving: Arrival, s: Store, row: Row, o: Output)
    requires CodecLaws(t.codec) && Tidy(t, good, arriving) && Sound(t.codec, good, s) && GoodRow(arriving, row)
    requires Entered(t, s.blobs, row, OldFor(s.manifest, row), o)
    ensures WellMade(t.codec, good, s.manifest, row, o)
  {
    var former := OldFor(s.manifest, row);
    BegunReport(row, former);
    if !Due(row, former) {
      OldIn(s.manifest, row);
    } else {
      var loaded :| && Loaded(t.codec, s.blobs, if former.Some? then former.value.assets else map[], loaded)
                    && Delivered(t, row, Begin(row, former), Judge(t, row, former, loaded), o);
      DueWellMade(t, good, arriving, s, row, o, loaded);
    }
  }
}
