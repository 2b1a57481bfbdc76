/** Publishing the current report: collect, choose one target, upload, commit the manifest, delete.
    Storage keeps named blobs and one manifest; a run may be interrupted at any storage call. */
module Publication {
  import opened Sequences
  import opened Ordering
  import opened Text
  import opened Shard
  import opened ShardTheorems
  import opened StatusContract

  // ----- the manifest

  datatype BundleRef = BundleRef(asset: string, sha256: string, bytes: nat)

  datatype Entry = Entry(
    id: string, canonicalId: Option<string>, originalId: Option<string>,
    requestId: Option<string>, clientRequestId: Option<string>,
    headSha: string, scanRun: Option<nat>, attempt: Option<nat>,
    status: string, lifecycle: string, reportStatus: Option<string>, stamp: string,
    analyzedSha: Option<string>, tooling: Option<string>, profile: Option<string>, collectedRun: Option<string>,
    documents: map<string, string>, assets: map<string, Meta>, bundle: Option<BundleRef>, overlayOnly: bool)

  datatype Overlay = Overlay(headSha: string, documents: map<string, string>, assets: map<string, Meta>)

  datatype Current = Current(targets: seq<Entry>, currentId: Option<string>, overlay: Option<Overlay>)

  const EMPTY := Current([], None, None)

  // ----- what a run is given

  /** What collecting a finished run yielded. `Unavailable` covers every error and rejection. */
  datatype Outcome =
    | Unavailable
    | Collected(documents: seq<Document>, analyzedSha: string, tooling: Option<string>, reportStatus: string,
                generated: string, statuses: map<string, string>, review: Option<string>)

  datatype Row = Row(entry: Entry, selected: seq<string>, reviewContext: bool, outcome: Outcome)

  /** A coordinator row holds no report of its own. */
  predicate Bare(row: Row) {
    && row.entry.documents == map[] && row.entry.assets == map[] && row.entry.bundle.None?
    && row.entry.analyzedSha.None? && row.entry.collectedRun.None? && !row.entry.overlayOnly
  }

  /** The shard codec, the same-revision merge, the derived documents and the audit bundle. */
  datatype Tools = Tools(codec: Codec, merge: (map<string, string>, seq<Document>, seq<string>) -> Option<(seq<Document>, string)>,
                         finish: seq<Document> -> seq<Document>, bundle: seq<Document> -> Bytes)

  const REPORT_ASSET_LIMIT := 4_000_000

  // ----- reading a stored report

  /** Every named asset, verified against its metadata and merged, in the order of the names. */
  function LoadFrom(c: Codec, blobs: map<string, Bytes>, assets: map<string, Meta>, names: seq<string>): Option<map<string, string>>
    requires forall i :: 0 <= i < |names| ==> names[i] in assets
  {
    if names == [] then Some(map[])
    else
      var name := names[|names| - 1];
      match LoadFrom(c, blobs, assets, names[..|names| - 1])
      case None => None
      case Some(documents) =>
        if name !in blobs then None
        else
          match VerifyAsset(c, name, blobs[name], assets[name])
          case Err(_) => None
          case Ok(more) => Some(documents + more)
  }

  /** Some enumeration of a set: a dictionary's keys in its own order. */
  ghost predicate Lists(names: seq<string>, keys: set<string>) {
    && (forall i :: 0 <= i < |names| ==> names[i] in keys)
    && (forall name :: name in keys ==> name in names)
  }

  ghost predicate Loaded(c: Codec, blobs: map<string, Bytes>, assets: map<string, Meta>, r: Option<map<string, string>>) {
    exists names :: Lists(names, assets.Keys) && r == LoadFrom(c, blobs, assets, names)
  }

  method LoadReportDocuments(c: Codec, blobs: map<string, Bytes>, assets: map<string, Meta>) returns (r: Option<map<string, string>>)
    ensures Loaded(c, blobs, assets, r)
  {
    r := Some(map[]);
    var todo := assets.Keys;
    ghost var names: seq<string> := [];
    while todo != {}
      invariant todo <= assets.Keys
      invariant Lists(names, assets.Keys - todo)
      invariant r == LoadFrom(c, blobs, assets, names)
    {
      var name :| name in todo;
      todo := todo - {name};
      assert (names + [name])[..|names|] == names;
      if r.Some? {
        r := if name !in blobs then None
             else match VerifyAsset(c, name, blobs[name], assets[name])
                  case Err(_) => None
                  case Ok(more) => Some(r.value + more);
      }
      names := names + [name];
    }
    assert assets.Keys - todo == assets.Keys;
  }

  // ----- the entry of one row

  function FindLast(targets: seq<Entry>, id: string): Option<Entry> {
    if targets == [] then None
    else if targets[|targets| - 1].id == id then Some(targets[|targets| - 1])
    else FindLast(targets[..|targets| - 1], id)
  }

  predicate Names(target: Entry, currentId: Option<string>) {
    Some(target.id) == currentId || target.canonicalId == currentId
  }

  function FirstNamed(targets: seq<Entry>, currentId: Option<string>): Option<Entry> {
    if targets == [] then None
    else if Names(targets[0], currentId) then Some(targets[0])
    else FirstNamed(targets[1..], currentId)
  }

  /** The report on show before the run; a manifest without an identity may have a single target. */
  function PriorCurrent(m: Current): Option<Entry> {
    match FirstNamed(m.targets, m.currentId)
    case Some(target) => Some(target)
    case None => if |m.targets| == 1 then Some(m.targets[0]) else None
  }

  function OldFor(m: Current, row: Row): Option<Entry> {
    var prior := PriorCurrent(m);
    match FindLast(m.targets, row.entry.id)
    case Some(former) => Some(former)
    case None => if prior.Some? && prior.value.originalId == Some(row.entry.id) then prior else None
  }

  function Show(n: Option<nat>): string {
    if n.Some? then Dec(n.value) else "None"
  }

  function RunKey(e: Entry): string {
    Show(e.scanRun) + "-" + Show(e.attempt)
  }

  function First<T>(a: Option<T>, b: Option<T>): Option<T> {
    if a.Some? then a else b
  }

  function Carry(e: Entry, former: Entry): Entry {
    e.(documents := former.documents, assets := former.assets, bundle := former.bundle,
       analyzedSha := First(former.analyzedSha, e.analyzedSha), collectedRun := First(former.collectedRun, e.collectedRun),
       reportStatus := First(former.reportStatus, e.reportStatus), tooling := First(former.tooling, e.tooling),
       profile := First(former.profile, e.profile))
  }

  predicate Due(row: Row, former: Option<Entry>) {
    row.entry.status == "collected" && !(former.Some? && former.value.collectedRun == Some(RunKey(row.entry)))
  }

  function Begin(row: Row, former: Option<Entry>): Entry {
    var status := row.entry.status;
    var e := row.entry.(lifecycle := if status == "collected" then "collecting"
                                     else if status == "scanning" then "running" else status);
    var carried := if former.Some? then Carry(e, former.value) else e;
    if carried.analyzedSha.Some? && carried.analyzedSha.value != "" && carried.analyzedSha.value != e.headSha
    then carried.(status := "stale")
    else if status == "collected" && !Due(row, former)
    then carried.(status := if former.value.reportStatus.Some? then former.value.reportStatus.value else "partial")
    else carried
  }

  predicate SameRevision(row: Row, former: Option<Entry>)
    requires row.outcome.Collected?
  {
    && former.Some? && former.value.analyzedSha == Some(row.outcome.analyzedSha)
    && former.value.tooling == row.outcome.tooling && former.value.profile == row.entry.profile
  }

  predicate HasCompletedSelectedChannel(statuses: map<string, string>, selected: seq<string>) {
    exists i :: 0 <= i < |selected| && selected[i] in statuses && IsComplete(statuses[selected[i]])
  }

  datatype Verdict = Rejected | Review(document: Document) | Report(documents: seq<Document>, status: string)

  /** What to do with a collected run; `loaded` is the report it may have to be merged into. */
  function Judge(t: Tools, row: Row, former: Option<Entry>, loaded: Option<map<string, string>>): Verdict {
    match row.outcome
    case Unavailable => Rejected
    case Collected(documents, _, _, status, _, statuses, review) =>
      if row.selected == ["coderabbit-ai-advisory"] && row.reviewContext then
        if review.Some? then Review(Document("pr-overlay.json", review.value)) else Rejected
      else if SameRevision(row, former) then
        if loaded.None? then Rejected
        else
          match t.merge(loaded.value, documents, row.selected)
          case None => Rejected
          case Some(merged) => Report(t.finish(merged.0), merged.1)
      else if HasCompletedSelectedChannel(statuses, row.selected) then Report(t.finish(documents), status)
      else Rejected
  }

  /** One row's entry and what it leaves to be uploaded. */
  datatype Output = Output(entry: Entry, assets: map<string, Bytes>, exports: map<string, Bytes>, overlay: Option<Overlay>)

  function BundleName(c: Codec, data: Bytes): string {
    "audit-" + c.sha(data) + ".zip"
  }

  function RefOf(c: Codec, data: Bytes): BundleRef {
    BundleRef(BundleName(c, data), c.sha(data), |data|)
  }

  function FailedEntry(e: Entry): Entry {
    e.(status := "failed", lifecycle := "failed")
  }

  function OverlayEntry(e: Entry): Entry {
    e.(status := "overlay_published", lifecycle := "overlay_published", overlayOnly := true)
  }

  function FreshEntry(row: Row, e: Entry, m: Manifest, status: string, bundle: BundleRef): Entry
    requires row.outcome.Collected?
  {
    e.(documents := m.documents, assets := m.assets, analyzedSha := Some(row.outcome.analyzedSha),
       collectedRun := Some(RunKey(row.entry)), tooling := row.outcome.tooling, profile := row.entry.profile,
       status := status, reportStatus := Some(status), bundle := Some(bundle), stamp := row.outcome.generated,
       lifecycle := if status == "partial" then "completed_partial" else "completed")
  }

  ghost predicate Ships(t: Tools, documents: seq<Document>, m: Manifest, assets: map<string, Bytes>) {
    exists pieces :: ShardedAs(t.codec, REPORT_ASSET_LIMIT, documents, pieces, m, assets)
  }

  /** The output of a row whose run is judged. */
  ghost predicate Delivered(t: Tools, row: Row, begun: Entry, verdict: Verdict, o: Output) {
    match verdict
    case Rejected => o == Output(FailedEntry(begun), map[], map[], None)
    case Review(document) =>
      if Shardable(t.codec, [document], REPORT_ASSET_LIMIT) then
        && o == Output(OverlayEntry(begun), o.assets, map[], o.overlay)
        && o.overlay.Some? && o.overlay.value.headSha == row.entry.headSha
        && Ships(t, [document], Manifest(o.overlay.value.documents, o.overlay.value.assets), o.assets)
      else o == Output(FailedEntry(begun), map[], map[], None)
    case Report(documents, status) =>
      if row.outcome.Collected? && Shardable(t.codec, documents, REPORT_ASSET_LIMIT) then
        var data := t.bundle(documents);
        var m := Manifest(o.entry.documents, o.entry.assets);
        && o == Output(FreshEntry(row, begun, m, status, RefOf(t.codec, data)), o.assets, map[BundleName(t.codec, data) := data], None)
        && Ships(t, documents, m, o.assets)
      else o == Output(FailedEntry(begun), map[], map[], None)
  }

  ghost predicate Entered(t: Tools, blobs: map<string, Bytes>, row: Row, former: Option<Entry>, o: Output) {
    if !Due(row, former) then o == Output(Begin(row, former), map[], map[], None)
    else exists loaded ::
      && Loaded(t.codec, blobs, if former.Some? then former.value.assets else map[], loaded)
      && Delivered(t, row, Begin(row, former), Judge(t, row, former, loaded), o)
  }

  method Enter(t: Tools, blobs: map<string, Bytes>, row: Row, former: Option<Entry>) returns (o: Output)
    ensures Entered(t, blobs, row, former, o)
  {
    var begun := Begin(row, former);
    o := Output(begun, map[], map[], None);
    if !Due(row, former) {
      return;
    }
    var loaded := LoadReportDocuments(t.codec, blobs, if former.Some? then former.value.assets else map[]);
    var verdict := Judge(t, row, former, loaded);
    o := Output(FailedEntry(begun), map[], map[], None);
    match verdict {
      case Rejected =>
      case Review(document) =>
        var r, pieces := Shard.Shard(t.codec, [document], REPORT_ASSET_LIMIT);
        if r.Ok? {
          o := Output(OverlayEntry(begun), r.value.1, map[],
                      Some(Overlay(row.entry.headSha, r.value.0.documents, r.value.0.assets)));
          assert Ships(t, [document], r.value.0, r.value.1);
        }
      case Report(documents, status) =>
        var r, pieces := Shard.Shard(t.codec, documents, REPORT_ASSET_LIMIT);
        if r.Ok? {
          var data := t.bundle(documents);
          o := Output(FreshEntry(row, begun, r.value.0, status, RefOf(t.codec, data)), r.value.1,
                      map[BundleName(t.codec, data) := data], None);
          assert Ships(t, documents, r.value.0, r.value.1);
        }
    }
    assert Delivered(t, row, begun, verdict, o);
  }

  // ----- the choice

  function EntryOf(o: Output): Entry { o.entry }

  function Entries(outputs: seq<Output>): seq<Entry> {
    Map(EntryOf, outputs)
  }

  function PendingAssets(outputs: seq<Output>): map<string, Bytes> {
    if outputs == [] then map[] else PendingAssets(outputs[..|outputs| - 1]) + outputs[|outputs| - 1].assets
  }

  function PendingExports(outputs: seq<Output>): map<string, Bytes> {
    if outputs == [] then map[] else PendingExports(outputs[..|outputs| - 1]) + outputs[|outputs| - 1].exports
  }

  function LastOverlay(before: Option<Overlay>, outputs: seq<Output>): Option<Overlay> {
    if outputs == [] then before
    else First(outputs[|outputs| - 1].overlay, LastOverlay(before, outputs[..|outputs| - 1]))
  }

  predicate IsValid(e: Entry) {
    && !e.overlayOnly && (e.lifecycle == "completed" || e.lifecycle == "completed_partial")
    && e.analyzedSha == Some(e.headSha) && e.documents != map[] && e.assets != map[]
  }

  function ValidEntries(outputs: seq<Output>): seq<Entry> {
    Filter(IsValid, Entries(outputs))
  }

  datatype Receipt = Receipt(requestId: string, headSha: string, scanRun: Option<nat>)

  datatype Context = Context(canonicalId: string, lastRequest: Option<string>, receipts: seq<Receipt>)

  function LatestReceipt(receipts: seq<Receipt>, requestId: string): Option<Receipt> {
    if receipts == [] then None
    else if receipts[|receipts| - 1].requestId == requestId then Some(receipts[|receipts| - 1])
    else LatestReceipt(receipts[..|receipts| - 1], requestId)
  }

  /** Does the entry answer the last accepted request, by its id or by its revision and run? */
  predicate Answers(ctx: Context, e: Entry) {
    && ctx.lastRequest.Some? && ctx.lastRequest.value != ""
    && var receipt := LatestReceipt(ctx.receipts, ctx.lastRequest.value);
       || e.clientRequestId == ctx.lastRequest || e.requestId == ctx.lastRequest
       || (receipt.Some? && e.headSha == receipt.value.headSha
           && (receipt.value.scanRun == None || receipt.value.scanRun == Some(0) || e.scanRun == receipt.value.scanRun))
  }

  function FirstAnswering(ctx: Context, valid: seq<Entry>): Option<Entry> {
    if valid == [] then None
    else if Answers(ctx, valid[0]) then Some(valid[0])
    else FirstAnswering(ctx, valid[1..])
  }

  function Value(n: Option<nat>): nat {
    if n.Some? then n.value else 0
  }

  predicate Newer(a: Entry, b: Entry) {
    if a.stamp != b.stamp then StrLe(b.stamp, a.stamp)
    else if Value(a.scanRun) != Value(b.scanRun) then Value(a.scanRun) > Value(b.scanRun)
    else Value(a.attempt) > Value(b.attempt)
  }

  /** The first of the newest entries. */
  function Newest(valid: seq<Entry>): Entry
    requires valid != []
  {
    if |valid| == 1 then valid[0]
    else
      var best := Newest(valid[..|valid| - 1]);
      if Newer(valid[|valid| - 1], best) then valid[|valid| - 1] else best
  }

  datatype Choice = FromRun(entry: Entry) | Retained(entry: Entry) | Nothing

  function Choose(previous: Current, ctx: Context, valid: seq<Entry>): Choice {
    match FirstAnswering(ctx, valid)
    case Some(requested) => FromRun(requested)
    case None =>
      if valid != [] then FromRun(Newest(valid))
      else
        match PriorCurrent(previous)
        case Some(entry) => Retained(entry)
        case None => Nothing
  }

  function Canonical(e: Entry, id: string): Entry {
    e.(id := id, canonicalId := Some(id), originalId := Some(if e.originalId.Some? then e.originalId.value else e.id))
  }

  /** A new report drops an overlay that was made for another revision. */
  function NextManifest(previous: Current, ctx: Context, outputs: seq<Output>): Current {
    var overlay := LastOverlay(previous.overlay, outputs);
    match Choose(previous, ctx, ValidEntries(outputs))
    case Nothing => Current([], None, overlay)
    case Retained(entry) => Current([Canonical(entry, ctx.canonicalId)], Some(ctx.canonicalId), overlay)
    case FromRun(entry) =>
      Current([Canonical(entry, ctx.canonicalId)], Some(ctx.canonicalId),
              if overlay.Some? && Some(overlay.value.headSha) != entry.analyzedSha then None else overlay)
  }

  // ----- what a manifest refers to

  function OverlayAssets(m: Current): set<string> {
    if m.overlay.Some? then m.overlay.value.assets.Keys else {}
  }

  function AssetRefs(m: Current): set<string> {
    (set i, name | 0 <= i < |m.targets| && name in m.targets[i].assets :: name) + OverlayAssets(m)
  }

  function ExportRefs(m: Current): set<string> {
    set i | 0 <= i < |m.targets| && m.targets[i].bundle.Some? :: m.targets[i].bundle.value.asset
  }

  function Refs(m: Current): set<string> {
    AssetRefs(m) + ExportRefs(m)
  }

  function Restrict(data: map<string, Bytes>, names: set<string>): map<string, Bytes> {
    map name | name in data && name in names :: data[name]
  }

  // ----- storage and its steps

  datatype Store = Store(blobs: map<string, Bytes>, manifest: Current)

  datatype Effect = Put(name: string, data: Bytes) | Commit(manifest: Current) | Delete(name: string)

  function Apply(s: Store, e: Effect): Store {
    match e
    case Put(name, data) => s.(blobs := s.blobs[name := data])
    case Commit(manifest) => s.(manifest := manifest)
    case Delete(name) => s.(blobs := map key | key in s.blobs && key != name :: s.blobs[key])
  }

  function ApplyAll(s: Store, effects: seq<Effect>): Store {
    if effects == [] then s else Apply(ApplyAll(s, effects[..|effects| - 1]), effects[|effects| - 1])
  }

  lemma ApplyOne(s: Store, effects: seq<Effect>, e: Effect)
    ensures ApplyAll(s, effects + [e]) == Apply(ApplyAll(s, effects), e)
  {
    assert (effects + [e])[..|effects|] == effects;
  }

  lemma {:induction false} ApplyMore(s: Store, a: seq<Effect>, b: seq<Effect>)
    ensures ApplyAll(s, a + b) == ApplyAll(ApplyAll(s, a), b)
  {
    if b == [] {
      assert a + b == a;
    } else {
      ApplyMore(s, a, b[..|b| - 1]);
      assert (a + b)[..|a + b| - 1] == a + b[..|b| - 1];
    }
  }

  ghost predicate PutsFrom(effects: seq<Effect>, data: map<string, Bytes>) {
    forall i :: 0 <= i < |effects| ==> effects[i].Put? && effects[i].name in data && effects[i].data == data[effects[i].name]
  }

  ghost predicate PutsAll(effects: seq<Effect>, data: map<string, Bytes>) {
    PutsFrom(effects, data) && forall name :: name in data ==> Put(name, data[name]) in effects
  }

  ghost predicate DeletesOf(effects: seq<Effect>, names: set<string>) {
    forall i :: 0 <= i < |effects| ==> effects[i].Delete? && effects[i].name in names
  }

  ghost predicate DeletesAll(effects: seq<Effect>, names: set<string>) {
    DeletesOf(effects, names) && forall name :: name in names ==> Delete(name) in effects
  }

  /** Uploads first, then the manifest, then deletions; the trace may end anywhere. */
  ghost predicate Disciplined(effects: seq<Effect>, uploads: map<string, Bytes>, m: Current, gone: set<string>) {
    || PutsFrom(effects, uploads)
    || exists puts, deletes ::
         PutsAll(puts, uploads) && DeletesOf(deletes, gone) && effects == puts + [Commit(m)] + deletes
  }

  /** The whole trace: nothing interrupted it and no deletion was refused. */
  ghost predicate Finished(effects: seq<Effect>, uploads: map<string, Bytes>, m: Current, gone: set<string>) {
    exists puts, deletes ::
      PutsAll(puts, uploads) && DeletesAll(deletes, gone) && effects == puts + [Commit(m)] + deletes
  }

  /** Remote storage. `calls` is the number of calls it answers before the run is interrupted;
      it refuses the deletion of the names in `kept`. */
  class Storage {
    var blobs: map<string, Bytes>
    var manifest: Current
    var calls: nat
    var kept: set<string>

    constructor (calls: nat)
      ensures State() == Store(map[], EMPTY)
    {
      blobs, manifest, this.calls, kept := map[], EMPTY, calls, {};
    }

    ghost function State(): Store
      reads this
    {
      Store(blobs, manifest)
    }

    method Upload(name: string, data: Bytes) returns (done: bool)
      modifies this
      ensures State() == if done then Apply(old(State()), Put(name, data)) else old(State())
      ensures kept == old(kept) && done == (old(calls) > 0) && calls == if done then old(calls) - 1 else 0
    {
      done := calls > 0;
      if done {
        blobs, calls := blobs[name := data], calls - 1;
      }
    }

    method Write(m: Current) returns (done: bool)
      modifies this
      ensures State() == if done then Apply(old(State()), Commit(m)) else old(State())
      ensures kept == old(kept) && done == (old(calls) > 0) && calls == if done then old(calls) - 1 else 0
    {
      done := calls > 0;
      if done {
        manifest, calls := m, calls - 1;
      }
    }

    method Remove(name: string) returns (done: bool)
      modifies this
      ensures State() == if done && name !in kept then Apply(old(State()), Delete(name)) else old(State())
      ensures kept == old(kept) && done == (old(calls) > 0) && calls == if done then old(calls) - 1 else 0
    {
      done := calls > 0;
      if done {
        calls := calls - 1;
        if name !in kept {
          blobs := map key | key in blobs && key != name :: blobs[key];
        }
      }
    }
  }

  method UploadAll(storage: Storage, data: map<string, Bytes>) returns (done: bool, ghost effects: seq<Effect>)
    modifies storage
    ensures PutsFrom(effects, data) && (done ==> PutsAll(effects, data))
    ensures storage.State() == ApplyAll(old(storage.State()), effects)
    ensures storage.kept == old(storage.kept) && (!done ==> storage.calls == 0)
  {
    done, effects := true, [];
    var todo := data.Keys;
    while todo != {} && done
      invariant todo <= data.Keys
      invariant PutsFrom(effects, data)
      invariant done ==> forall name :: name in data && name !in todo ==> Put(name, data[name]) in effects
      invariant storage.State() == ApplyAll(old(storage.State()), effects)
      invariant storage.kept == old(storage.kept) && (!done ==> storage.calls == 0)
      decreases todo
    {
      var name :| name in todo;
      done := storage.Upload(name, data[name]);
      todo := todo - {name};
      if done {
        ApplyOne(old(storage.State()), effects, Put(name, data[name]));
        effects := effects + [Put(name, data[name])];
      }
    }
  }

  method RemoveAll(storage: Storage, names: set<string>) returns (cleared: bool, ghost effects: seq<Effect>)
    modifies storage
    ensures DeletesOf(effects, names) && (cleared ==> DeletesAll(effects, names))
    ensures storage.State() == ApplyAll(old(storage.State()), effects)
    ensures storage.kept == old(storage.kept)
    ensures cleared || storage.calls == 0 || exists name :: name in names && name in storage.kept
  {
    effects := [];
    cleared := true;
    var todo, done := names, true;
    while todo != {} && done
      invariant todo <= names
      invariant DeletesOf(effects, names)
      invariant cleared ==> done && forall name :: name in names && name !in todo ==> Delete(name) in effects
      invariant storage.State() == ApplyAll(old(storage.State()), effects)
      invariant storage.kept == old(storage.kept)
      invariant !done ==> storage.calls == 0
      invariant cleared || storage.calls == 0 || exists name :: name in names && name in storage.kept
      decreases todo
    {
      var name :| name in todo;
      done := storage.Remove(name);
      if done && name !in storage.kept {
        ApplyOne(old(storage.State()), effects, Delete(name));
        effects := effects + [Delete(name)];
      } else {
        cleared := false;
      }
      todo := todo - {name};
    }
  }

  ghost predicate AllEntered(t: Tools, s: Store, rows: seq<Row>, outputs: seq<Output>) {
    |outputs| == |rows| && forall i :: 0 <= i < |rows| ==> Entered(t, s.blobs, rows[i], OldFor(s.manifest, rows[i]), outputs[i])
  }

  function Uploads(outputs: seq<Output>, m: Current): map<string, Bytes> {
    Restrict(PendingAssets(outputs), AssetRefs(m)) + Restrict(PendingExports(outputs), ExportRefs(m))
  }

  /** One run, as far as it came. */
  ghost predicate RunStep(t: Tools, s: Store, rows: seq<Row>, ctx: Context, outputs: seq<Output>, effects: seq<Effect>) {
    && AllEntered(t, s, rows, outputs)
    && var m := NextManifest(s.manifest, ctx, outputs);
       Disciplined(effects, Uploads(outputs, m), m, Refs(s.manifest) - Refs(m))
  }

  /** One run that came to its end. */
  ghost predicate WholeRun(t: Tools, s: Store, rows: seq<Row>, ctx: Context, outputs: seq<Output>, effects: seq<Effect>) {
    && AllEntered(t, s, rows, outputs)
    && var m := NextManifest(s.manifest, ctx, outputs);
       Finished(effects, Uploads(outputs, m), m, Refs(s.manifest) - Refs(m))
  }

  lemma PutsJoin(a: seq<Effect>, b: seq<Effect>, x: map<string, Bytes>, y: map<string, Bytes>)
    requires PutsFrom(a, x) && PutsFrom(b, y) && x.Keys !! y.Keys
    ensures PutsFrom(a + b, x + y)
    ensures PutsAll(a, x) && PutsAll(b, y) ==> PutsAll(a + b, x + y)
  {
    if PutsAll(a, x) && PutsAll(b, y) {
      forall name | name in x + y ensures Put(name, (x + y)[name]) in a + b {
        assert if name in y then Put(name, y[name]) in b else Put(name, x[name]) in a;
      }
    }
  }

  // ----- every uploaded blob is named by its content

  ghost predicate AssetsAddressed(c: Codec, data: map<string, Bytes>) {
    forall name :: name in data ==> name == AssetName(c, data[name])
  }

  ghost predicate ExportsAddressed(c: Codec, data: map<string, Bytes>) {
    forall name :: name in data ==> name == BundleName(c, data[name])
  }

  lemma {:induction false} ShippedAddressed(c: Codec, pieces: seq<seq<Document>>)
    ensures AssetsAddressed(c, AssetsOf(c, pieces))
  {
    if pieces != [] {
      ShippedAddressed(c, pieces[..|pieces| - 1]);
    }
  }

  lemma ShipsAddressed(t: Tools, documents: seq<Document>, m: Manifest, assets: map<string, Bytes>)
    requires Ships(t, documents, m, assets)
    ensures AssetsAddressed(t.codec, assets)
  {
    var pieces :| ShardedAs(t.codec, REPORT_ASSET_LIMIT, documents, pieces, m, assets);
    ShippedAddressed(t.codec, pieces);
  }

  lemma DeliveredAddressed(t: Tools, row: Row, begun: Entry, verdict: Verdict, o: Output)
    requires Delivered(t, row, begun, verdict, o)
    ensures AssetsAddressed(t.codec, o.assets) && ExportsAddressed(t.codec, o.exports)
  {
    match verdict
    case Rejected =>
    case Review(document) =>
      if Shardable(t.codec, [document], REPORT_ASSET_LIMIT) {
        ShipsAddressed(t, [document], Manifest(o.overlay.value.documents, o.overlay.value.assets), o.assets);
      }
    case Report(documents, _) =>
      if row.outcome.Collected? && Shardable(t.codec, documents, REPORT_ASSET_LIMIT) {
        var m := Manifest(o.entry.documents, o.entry.assets);
        assert Ships(t, documents, m, o.assets);
        ShipsAddressed(t, documents, m, o.assets);
      }
  }

  lemma OutputAddressed(t: Tools, blobs: map<string, Bytes>, row: Row, former: Option<Entry>, o: Output)
    requires Entered(t, blobs, row, former, o)
    ensures AssetsAddressed(t.codec, o.assets) && ExportsAddressed(t.codec, o.exports)
  {
    if Due(row, former) {
      var loaded :| Delivered(t, row, Begin(row, former), Judge(t, row, former, loaded), o);
      DeliveredAddressed(t, row, Begin(row, former), Judge(t, row, former, loaded), o);
    }
  }

  lemma {:induction false} PendingAddressed(c: Codec, outputs: seq<Output>)
    requires forall i :: 0 <= i < |outputs| ==> AssetsAddressed(c, outputs[i].assets) && ExportsAddressed(c, outputs[i].exports)
    ensures AssetsAddressed(c, PendingAssets(outputs)) && ExportsAddressed(c, PendingExports(outputs))
  {
    if outputs != [] {
      PendingAddressed(c, outputs[..|outputs| - 1]);
    }
  }

  lemma RunAddressed(t: Tools, s: Store, rows: seq<Row>, outputs: seq<Output>)
    requires AllEntered(t, s, rows, outputs)
    ensures AssetsAddressed(t.codec, PendingAssets(outputs)) && ExportsAddressed(t.codec, PendingExports(outputs))
  {
    forall i | 0 <= i < |outputs| ensures AssetsAddressed(t.codec, outputs[i].assets) && ExportsAddressed(t.codec, outputs[i].exports) {
      OutputAddressed(t, s.blobs, rows[i], OldFor(s.manifest, rows[i]), outputs[i]);
    }
    PendingAddressed(t.codec, outputs);
  }

  lemma KindsDiffer(c: Codec, a: Bytes, b: Bytes)
    ensures AssetName(c, a) != BundleName(c, b)
  {
    assert AssetName(c, a)[1] == 'n' && BundleName(c, b)[1] == 'u';
  }

  lemma KindsApart(c: Codec, x: map<string, Bytes>, y: map<string, Bytes>)
    requires AssetsAddressed(c, x) && ExportsAddressed(c, y)
    ensures x.Keys !! y.Keys
  {
    forall name | name in x && name in y ensures false {
      KindsDiffer(c, x[name], y[name]);
    }
  }

  lemma EnteredMore(t: Tools, s: Store, rows: seq<Row>, row: Row, outputs: seq<Output>, o: Output)
    requires AllEntered(t, s, rows, outputs) && Entered(t, s.blobs, row, OldFor(s.manifest, row), o)
    ensures AllEntered(t, s, rows + [row], outputs + [o])
    ensures PendingAssets(outputs + [o]) == PendingAssets(outputs) + o.assets
    ensures PendingExports(outputs + [o]) == PendingExports(outputs) + o.exports
  {
    assert (outputs + [o])[..|outputs|] == outputs;
  }

  method EnterAll(t: Tools, blobs: map<string, Bytes>, previous: Current, rows: seq<Row>)
      returns (outputs: seq<Output>, assets: map<string, Bytes>, exports: map<string, Bytes>)
    ensures AllEntered(t, Store(blobs, previous), rows, outputs)
    ensures assets == PendingAssets(outputs) && exports == PendingExports(outputs)
  {
    outputs, assets, exports := [], map[], map[];
    for i := 0 to |rows|
      invariant AllEntered(t, Store(blobs, previous), rows[..i], outputs)
      invariant assets == PendingAssets(outputs) && exports == PendingExports(outputs)
    {
      var o := Enter(t, blobs, rows[i], OldFor(previous, rows[i]));
      TakeNext(rows, i);
      EnteredMore(t, Store(blobs, previous), rows[..i], rows[i], outputs, o);
      outputs, assets, exports := outputs + [o], assets + o.assets, exports + o.exports;
    }
    TakeAll(rows);
  }

  /** Upload, commit, delete, in this order, until interrupted. */
  method Perform(storage: Storage, m: Current, assets: map<string, Bytes>, exports: map<string, Bytes>, gone: set<string>)
      returns (done: bool, cleared: bool, ghost effects: seq<Effect>)
    requires assets.Keys !! exports.Keys
    modifies storage
    ensures Disciplined(effects, assets + exports, m, gone)
    ensures cleared ==> Finished(effects, assets + exports, m, gone)
    ensures storage.State() == ApplyAll(old(storage.State()), effects)
    ensures storage.manifest == if done then m else old(storage.manifest)
    ensures storage.kept == old(storage.kept) && (!done ==> storage.calls == 0)
    ensures cleared || storage.calls == 0 || exists name :: name in gone && name in storage.kept
  {
    ghost var before := storage.State();
    ghost var puts, more, none: seq<Effect> := [], [], [];
    cleared := false;
    done, puts := UploadAll(storage, assets);
    UntouchedManifest(before, puts, assets);
    if !done {
      PutsJoin(puts, none, assets, exports);
      ApplyMore(before, puts, none);
      effects := puts + none;
      return;
    }
    done, more := UploadAll(storage, exports);
    ApplyMore(before, puts, more);
    PutsJoin(puts, more, assets, exports);
    puts := puts + more;
    effects := puts;
    UntouchedManifest(before, puts, assets + exports);
    if !done { return; }
    done := storage.Write(m);
    if !done { return; }
    ApplyOne(before, puts, Commit(m));
    ghost var deletes;
    cleared, deletes := RemoveAll(storage, gone);
    ApplyMore(before, puts + [Commit(m)], deletes);
    DeletionsKeepManifest(ApplyAll(before, puts + [Commit(m)]), deletes, gone);
    effects := puts + [Commit(m)] + deletes;
  }

  /** One publisher run. `done`: the manifest was committed; `cleared`: and every deletion took effect. */
  method ReportPublication(t: Tools, storage: Storage, rows: seq<Row>, ctx: Context)
      returns (done: bool, cleared: bool, ghost outputs: seq<Output>, ghost effects: seq<Effect>)
    modifies storage
    ensures RunStep(t, old(storage.State()), rows, ctx, outputs, effects)
    ensures storage.State() == ApplyAll(old(storage.State()), effects)
    ensures cleared ==> WholeRun(t, old(storage.State()), rows, ctx, outputs, effects)
    ensures storage.manifest == if done then NextManifest(old(storage.manifest), ctx, outputs) else old(storage.manifest)
    ensures !done ==> storage.calls == 0
    ensures cleared || storage.calls == 0 || exists name :: name in Refs(old(storage.manifest)) && name in storage.kept
  {
    var previous := storage.manifest;
    var made, assets, exports := EnterAll(t, storage.blobs, previous, rows);
    outputs := made;
    RunAddressed(t, storage.State(), rows, outputs);
    var m := NextManifest(previous, ctx, made);
    var wanted, wantedExports := Restrict(assets, AssetRefs(m)), Restrict(exports, ExportRefs(m));
    KindsApart(t.codec, wanted, wantedExports);
    done, cleared, effects := Perform(storage, m, wanted, wantedExports, Refs(previous) - Refs(m));
  }

  lemma {:induction false} UntouchedManifest(s: Store, puts: seq<Effect>, data: map<string, Bytes>)
    requires PutsFrom(puts, data)
    ensures ApplyAll(s, puts).manifest == s.manifest
  {
    if puts != [] {
      UntouchedManifest(s, puts[..|puts| - 1], data);
    }
  }

  lemma {:induction false} DeletionsKeepManifest(s: Store, deletes: seq<Effect>, names: set<string>)
    requires DeletesOf(deletes, names)
    ensures ApplyAll(s, deletes).manifest == s.manifest
  {
    if deletes != [] {
      DeletionsKeepManifest(s, deletes[..|deletes| - 1], names);
    }
  }
}
