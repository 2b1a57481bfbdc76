/** Publication over whole runs: soundness at every moment, the report that is never lost,
    and storage that holds nothing but what the manifest refers to. */
module PublicationRuns {
  import opened Sequences
  import opened Text
  import opened Shard
  import opened Publication
  import opened PublicationTheorems

  // ----- the new manifest is backed once everything is uploaded

  lemma {:induction false} OverlayFrom(before: Option<Overlay>, outputs: seq<Output>)
    ensures LastOverlay(before, outputs) == before
      || exists i :: 0 <= i < |outputs| && outputs[i].overlay.Some? && outputs[i].overlay == LastOverlay(before, outputs)
  {
    if outputs != [] {
      OverlayFrom(before, outputs[..|outputs| - 1]);
    }
  }

  lemma {:induction false} AnsweringIn(ctx: Context, valid: seq<Entry>)
    ensures FirstAnswering(ctx, valid).Some? ==> FirstAnswering(ctx, valid).value in valid && Answers(ctx, FirstAnswering(ctx, valid).value)
    ensures FirstAnswering(ctx, valid).None? ==> forall e :: e in valid ==> !Answers(ctx, e)
  {
    if valid != [] && !Answers(ctx, valid[0]) {
      AnsweringIn(ctx, valid[1..]);
      assert valid == [valid[0]] + valid[1..];
    }
  }

  lemma {:induction false} NewestIn(valid: seq<Entry>)
    requires valid != []
    ensures Newest(valid) in valid
  {
    if |valid| > 1 {
      NewestIn(valid[..|valid| - 1]);
    }
  }

  lemma ValidIs(outputs: seq<Output>, e: Entry)
    requires e in ValidEntries(outputs)
    ensures exists i :: 0 <= i < |outputs| && outputs[i].entry == e && IsValid(e)
  {
    FilterMembers(IsValid, Entries(outputs));
    var i :| 0 <= i < |Entries(outputs)| && Entries(outputs)[i] == e;
    assert EntryOf(outputs[i]) == e;
  }

  lemma ChosenFrom(previous: Current, ctx: Context, outputs: seq<Output>)
    ensures var choice := Choose(previous, ctx, ValidEntries(outputs));
            && (choice.FromRun? ==> exists i :: 0 <= i < |outputs| && outputs[i].entry == choice.entry && IsValid(choice.entry))
            && (choice.Retained? ==> exists i :: 0 <= i < |previous.targets| && previous.targets[i] == choice.entry)
  {
    var valid := ValidEntries(outputs);
    var choice := Choose(previous, ctx, valid);
    AnsweringIn(ctx, valid);
    PriorIn(previous);
    if choice.FromRun? {
      if FirstAnswering(ctx, valid).None? { NewestIn(valid); }
      ValidIs(outputs, choice.entry);
    }
  }

  lemma {:induction false} PendingHas(outputs: seq<Output>, i: nat, name: string)
    requires i < |outputs|
    ensures name in outputs[i].assets ==> name in PendingAssets(outputs)
    ensures name in outputs[i].exports ==> name in PendingExports(outputs)
  {
    if i < |outputs| - 1 {
      PendingHas(outputs[..|outputs| - 1], i, name);
    }
  }

  lemma JoinedLookup(x: map<string, Bytes>, y: map<string, Bytes>, xs: set<string>, ys: set<string>, name: string)
    requires x.Keys !! y.Keys
    ensures var both := Restrict(x, xs) + Restrict(y, ys);
            && (name in x && name in xs ==> name in both && both[name] == x[name])
            && (name in y && name in ys ==> name in both && both[name] == y[name])
  {
  }

  /** The uploads of a run carry the bytes that each row produced. */
  lemma UploadsCarry(c: Codec, outputs: seq<Output>, m: Current, i: nat, name: string)
    requires CodecLaws(c) && i < |outputs|
    requires AssetsAddressed(c, PendingAssets(outputs)) && ExportsAddressed(c, PendingExports(outputs))
    requires AssetsAddressed(c, outputs[i].assets) && ExportsAddressed(c, outputs[i].exports)
    ensures name in outputs[i].assets && name in AssetRefs(m) ==> name in Uploads(outputs, m) && Uploads(outputs, m)[name] == outputs[i].assets[name]
    ensures name in outputs[i].exports && name in ExportRefs(m) ==> name in Uploads(outputs, m) && Uploads(outputs, m)[name] == outputs[i].exports[name]
  {
    var assets, exports := PendingAssets(outputs), PendingExports(outputs);
    PendingHas(outputs, i, name);
    KindsApart(c, assets, exports);
    JoinedLookup(assets, exports, AssetRefs(m), ExportRefs(m), name);
    if name in outputs[i].assets {
      SameAddressSameData(c, name, assets[name], outputs[i].assets[name]);
    }
    if name in outputs[i].exports {
      SameAddressSameData(c, name, exports[name], outputs[i].exports[name]);
    }
  }

  /** Everything in `uploads` is stored. */
  ghost predicate Stored(uploads: map<string, Bytes>, blobs: map<string, Bytes>) {
    Steady(uploads, blobs, uploads.Keys)
  }

  /** The facts about one run that the proofs below share. */
  ghost predicate Made(t: Tools, good: Documents -> bool, s: Store, rows: seq<Row>, outputs: seq<Output>) {
    && |outputs| == |rows|
    && AssetsAddressed(t.codec, PendingAssets(outputs)) && ExportsAddressed(t.codec, PendingExports(outputs))
    && (forall i :: 0 <= i < |outputs| ==> AssetsAddressed(t.codec, outputs[i].assets) && ExportsAddressed(t.codec, outputs[i].exports))
    && (forall i :: 0 <= i < |outputs| ==> WellMade(t.codec, good, s.manifest, rows[i], outputs[i]))
  }

  lemma RunMade(t: Tools, good: Documents -> bool, arriving: Arrival, s: Store, rows: seq<Row>, outputs: seq<Output>)
    requires CodecLaws(t.codec) && Tidy(t, good, arriving) && Sound(t.codec, good, s) && GoodRows(arriving, rows)
    requires AllEntered(t, s, rows, outputs)
    ensures Made(t, good, s, rows, outputs)
  {
    RunAddressed(t, s, rows, outputs);
    forall i | 0 <= i < |outputs|
      ensures AssetsAddressed(t.codec, outputs[i].assets) && ExportsAddressed(t.codec, outputs[i].exports)
      ensures WellMade(t.codec, good, s.manifest, rows[i], outputs[i])
    {
      assert GoodRow(arriving, rows[i]);
      OutputAddressed(t, s.blobs, rows[i], OldFor(s.manifest, rows[i]), outputs[i]);
      EntryWellMade(t, good, arriving, s, rows[i], outputs[i]);
    }
  }

  /** A canonical target stores what the entry it was made from stores. */
  lemma CarriedStored(c: Codec, good: Documents -> bool, blobs: map<string, Bytes>, m: Current, e: Entry, id: string)
    requires Holds(c, good, blobs, m) && CarriedOver(m, e)
    ensures EntryStored(c, good, blobs, Canonical(e, id))
  {
    var i :| 0 <= i < |m.targets| && SameReport(m.targets[i], e);
    assert EntryStored(c, good, blobs, m.targets[i]);
  }

  lemma AssetsCarried(c: Codec, outputs: seq<Output>, m: Current, blobs: map<string, Bytes>, i: nat)
    requires CodecLaws(c) && i < |outputs|
    requires AssetsAddressed(c, PendingAssets(outputs)) && ExportsAddressed(c, PendingExports(outputs))
    requires AssetsAddressed(c, outputs[i].assets) && ExportsAddressed(c, outputs[i].exports)
    requires Stored(Uploads(outputs, m), blobs)
    ensures outputs[i].assets.Keys <= AssetRefs(m) ==> Steady(outputs[i].assets, blobs, outputs[i].assets.Keys)
    ensures outputs[i].exports.Keys <= ExportRefs(m) ==> Steady(outputs[i].exports, blobs, outputs[i].exports.Keys)
  {
    forall name | name in outputs[i].assets && name in AssetRefs(m) ensures name in blobs && blobs[name] == outputs[i].assets[name] {
      UploadsCarry(c, outputs, m, i, name);
    }
    forall name | name in outputs[i].exports && name in ExportRefs(m) ensures name in blobs && blobs[name] == outputs[i].exports[name] {
      UploadsCarry(c, outputs, m, i, name);
    }
  }

  lemma FreshStored(t: Tools, good: Documents -> bool, row: Row, outputs: seq<Output>, m: Current, blobs: map<string, Bytes>, i: nat, id: string)
    requires CodecLaws(t.codec) && i < |outputs| && Fresh(t.codec, good, row, outputs[i])
    requires AssetsAddressed(t.codec, PendingAssets(outputs)) && ExportsAddressed(t.codec, PendingExports(outputs))
    requires AssetsAddressed(t.codec, outputs[i].assets) && ExportsAddressed(t.codec, outputs[i].exports)
    requires Stored(Uploads(outputs, m), blobs) && m.targets == [Canonical(outputs[i].entry, id)]
    ensures EntryStored(t.codec, good, blobs, m.targets[0])
  {
    TargetRefs(m, 0);
    AssetsCarried(t.codec, outputs, m, blobs, i);
    BackedSteady(t.codec, good, outputs[i].assets, blobs, outputs[i].entry.documents, outputs[i].entry.assets);
  }

  lemma OverlayKept(t: Tools, good: Documents -> bool, s: Store, rows: seq<Row>, outputs: seq<Output>, m: Current, blobs: map<string, Bytes>)
    requires CodecLaws(t.codec) && Made(t, good, s, rows, outputs)
    requires Holds(t.codec, good, blobs, s.manifest) && Stored(Uploads(outputs, m), blobs)
    requires m.overlay.Some? ==> m.overlay == LastOverlay(s.manifest.overlay, outputs)
    ensures OverlayStored(t.codec, blobs, m.overlay)
  {
    OverlayFrom(s.manifest.overlay, outputs);
    if m.overlay.Some? && m.overlay != s.manifest.overlay {
      var i :| 0 <= i < |outputs| && outputs[i].overlay.Some? && outputs[i].overlay == m.overlay;
      assert WellMade(t.codec, good, s.manifest, rows[i], outputs[i]);
      AssetsCarried(t.codec, outputs, m, blobs, i);
      BackedSteady(t.codec, Any, outputs[i].assets, blobs, m.overlay.value.documents, m.overlay.value.assets);
    }
  }

  lemma RunEntryStored(t: Tools, good: Documents -> bool, s: Store, rows: seq<Row>, outputs: seq<Output>, m: Current, blobs: map<string, Bytes>,
                       i: nat, id: string)
    requires CodecLaws(t.codec) && Made(t, good, s, rows, outputs) && i < |outputs| && IsValid(outputs[i].entry)
    requires Holds(t.codec, good, blobs, s.manifest) && Stored(Uploads(outputs, m), blobs) && m.targets == [Canonical(outputs[i].entry, id)]
    ensures EntryStored(t.codec, good, blobs, m.targets[0])
  {
    assert WellMade(t.codec, good, s.manifest, rows[i], outputs[i]);
    if CarriedOver(s.manifest, outputs[i].entry) {
      CarriedStored(t.codec, good, blobs, s.manifest, outputs[i].entry, id);
    } else {
      FreshStored(t, good, rows[i], outputs, m, blobs, i, id);
    }
  }

  lemma NextHolds(t: Tools, good: Documents -> bool, s: Store, rows: seq<Row>, ctx: Context, outputs: seq<Output>, blobs: map<string, Bytes>)
    requires CodecLaws(t.codec) && Made(t, good, s, rows, outputs)
    requires var m := NextManifest(s.manifest, ctx, outputs);
             Holds(t.codec, good, blobs, s.manifest) && Stored(Uploads(outputs, m), blobs)
    ensures Holds(t.codec, good, blobs, NextManifest(s.manifest, ctx, outputs))
  {
    var m := NextManifest(s.manifest, ctx, outputs);
    var choice := Choose(s.manifest, ctx, ValidEntries(outputs));
    ChosenFrom(s.manifest, ctx, outputs);
    OverlayKept(t, good, s, rows, outputs, m, blobs);
    match choice
    case Nothing =>
    case Retained(e) => CarriedStored(t.codec, good, blobs, s.manifest, e, ctx.canonicalId);
    case FromRun(e) =>
      var i :| 0 <= i < |outputs| && outputs[i].entry == e && IsValid(e);
      RunEntryStored(t, good, s, rows, outputs, m, blobs, i, ctx.canonicalId);
  }

  // ----- every moment of a run

  lemma UploadsAddressed(t: Tools, good: Documents -> bool, s: Store, rows: seq<Row>, outputs: seq<Output>, m: Current)
    requires Made(t, good, s, rows, outputs)
    ensures AllAddressed(t.codec, Uploads(outputs, m))
  {
  }

  lemma PrefixOf<T>(a: seq<T>, b: seq<T>, k: nat)
    requires k <= |a + b|
    ensures k <= |a| ==> (a + b)[..k] == a[..k]
    ensures k > |a| ==> (a + b)[..k] == a + b[..k - |a|]
  {
  }

  lemma PutsPrefix(puts: seq<Effect>, data: map<string, Bytes>, k: nat)
    requires PutsFrom(puts, data) && k <= |puts|
    ensures PutsFrom(puts[..k], data)
  {
  }

  lemma DeletesPrefix(deletes: seq<Effect>, gone: set<string>, k: nat)
    requires DeletesOf(deletes, gone) && k <= |deletes|
    ensures DeletesOf(deletes[..k], gone)
  {
  }

  /** A disciplined trace cut off anywhere is disciplined. */
  lemma CutDisciplined(effects: seq<Effect>, uploads: map<string, Bytes>, m: Current, gone: set<string>, k: nat)
    requires Disciplined(effects, uploads, m, gone) && k <= |effects|
    ensures Disciplined(effects[..k], uploads, m, gone)
  {
    if PutsFrom(effects, uploads) {
      PutsPrefix(effects, uploads, k);
    } else {
      var puts, deletes :| PutsAll(puts, uploads) && DeletesOf(deletes, gone) && effects == puts + [Commit(m)] + deletes;
      var head := puts + [Commit(m)];
      PrefixOf(head, deletes, k);
      if k <= |puts| {
        PrefixOf(puts, [Commit(m)], k);
        PutsPrefix(puts, uploads, k);
      } else {
        DeletesPrefix(deletes, gone, k - |head|);
        assert effects[..k] == puts + [Commit(m)] + deletes[..k - |head|];
      }
    }
  }

  lemma NextSingle(previous: Current, ctx: Context, outputs: seq<Output>)
    ensures Single(NextManifest(previous, ctx, outputs))
  {
  }

  lemma UploadsStored(s: Store, puts: seq<Effect>, uploads: map<string, Bytes>)
    requires PutsAll(puts, uploads)
    ensures Stored(uploads, ApplyAll(s, puts).blobs)
  {
    forall name | name in uploads ensures name in ApplyAll(s, puts).blobs && ApplyAll(s, puts).blobs[name] == uploads[name] {
      PutsStored(s, puts, uploads, name);
    }
  }

  lemma CommittedSound(t: Tools, good: Documents -> bool, s: Store, rows: seq<Row>, ctx: Context, outputs: seq<Output>, puts: seq<Effect>)
    requires CodecLaws(t.codec) && Sound(t.codec, good, s) && Made(t, good, s, rows, outputs)
    requires PutsAll(puts, Uploads(outputs, NextManifest(s.manifest, ctx, outputs)))
    ensures Sound(t.codec, good, Apply(ApplyAll(s, puts), Commit(NextManifest(s.manifest, ctx, outputs))))
  {
    var m := NextManifest(s.manifest, ctx, outputs);
    UploadsAddressed(t, good, s, rows, outputs, m);
    PutsKeep(t.codec, good, s, puts, Uploads(outputs, m));
    UploadsStored(s, puts, Uploads(outputs, m));
    NextHolds(t, good, s, rows, ctx, outputs, ApplyAll(s, puts).blobs);
    NextSingle(s.manifest, ctx, outputs);
  }

  lemma CommitKeepsSound(t: Tools, good: Documents -> bool, s: Store, rows: seq<Row>, ctx: Context, outputs: seq<Output>,
                         puts: seq<Effect>, deletes: seq<Effect>)
    requires CodecLaws(t.codec) && Sound(t.codec, good, s) && Made(t, good, s, rows, outputs)
    requires PutsAll(puts, Uploads(outputs, NextManifest(s.manifest, ctx, outputs)))
    requires DeletesOf(deletes, Refs(s.manifest) - Refs(NextManifest(s.manifest, ctx, outputs)))
    ensures Sound(t.codec, good, ApplyAll(s, puts + [Commit(NextManifest(s.manifest, ctx, outputs))] + deletes))
  {
    var m := NextManifest(s.manifest, ctx, outputs);
    CommittedSound(t, good, s, rows, ctx, outputs, puts);
    ApplyOne(s, puts, Commit(m));
    DeletesKeep(t.codec, good, ApplyAll(s, puts + [Commit(m)]), deletes, Refs(s.manifest) - Refs(m));
    ApplyMore(s, puts + [Commit(m)], deletes);
  }

  lemma RunKeepsSound(t: Tools, good: Documents -> bool, arriving: Arrival, s: Store, rows: seq<Row>, ctx: Context, outputs: seq<Output>, effects: seq<Effect>)
    requires CodecLaws(t.codec) && Tidy(t, good, arriving) && Sound(t.codec, good, s) && GoodRows(arriving, rows)
    requires RunStep(t, s, rows, ctx, outputs, effects)
    ensures Sound(t.codec, good, ApplyAll(s, effects))
  {
    var m := NextManifest(s.manifest, ctx, outputs);
    var uploads, gone := Uploads(outputs, m), Refs(s.manifest) - Refs(m);
    RunMade(t, good, arriving, s, rows, outputs);
    if PutsFrom(effects, uploads) {
      UploadsAddressed(t, good, s, rows, outputs, m);
      PutsKeep(t.codec, good, s, effects, uploads);
    } else {
      var puts, deletes :| PutsAll(puts, uploads) && DeletesOf(deletes, gone) && effects == puts + [Commit(m)] + deletes;
      CommitKeepsSound(t, good, s, rows, ctx, outputs, puts, deletes);
    }
  }

  /** After every single storage call of a run, everything that the stored manifest refers to is
      stored and reads back as a good report, and the manifest has one current target at most. */
  lemma EveryMomentSound(t: Tools, good: Documents -> bool, arriving: Arrival, s: Store, rows: seq<Row>, ctx: Context, outputs: seq<Output>, effects: seq<Effect>, k: nat)
    requires CodecLaws(t.codec) && Tidy(t, good, arriving) && Sound(t.codec, good, s) && GoodRows(arriving, rows)
    requires RunStep(t, s, rows, ctx, outputs, effects) && k <= |effects|
    ensures Sound(t.codec, good, ApplyAll(s, effects[..k]))
  {
    var m := NextManifest(s.manifest, ctx, outputs);
    CutDisciplined(effects, Uploads(outputs, m), m, Refs(s.manifest) - Refs(m), k);
    RunKeepsSound(t, good, arriving, s, rows, ctx, outputs, effects[..k]);
  }

  // ----- the report that is never lost

  /** How one manifest may follow another: the same report, or one made in this run at the target's revision. */
  ghost predicate Follows(c: Codec, good: Documents -> bool, before: Current, rows: seq<Row>, outputs: seq<Output>, after: Current) {
    && (|before.targets| == 1 ==> |after.targets| == 1)
    && (|after.targets| == 1 ==>
          || (|before.targets| == 1 && SameReport(before.targets[0], after.targets[0]))
          || MadeInRun(c, good, before, rows, outputs, after.targets[0]))
  }

  ghost predicate MadeInRun(c: Codec, good: Documents -> bool, before: Current, rows: seq<Row>, outputs: seq<Output>, target: Entry) {
    && target.analyzedSha == Some(target.headSha)
    && exists i :: 0 <= i < |outputs| && |outputs| == |rows| && Due(rows[i], OldFor(before, rows[i]))
         && Fresh(c, good, rows[i], outputs[i]) && SameReport(outputs[i].entry, target) && outputs[i].entry.headSha == target.headSha
  }

  lemma CarriedFollows(m: Current, e: Entry, target: Entry)
    requires Single(m) && CarriedOver(m, e) && SameReport(e, target)
    ensures |m.targets| == 1 && SameReport(m.targets[0], target)
  {
  }

  lemma ValidFollows(t: Tools, good: Documents -> bool, before: Current, rows: seq<Row>, outputs: seq<Output>, i: nat, target: Entry)
    requires Single(before) && |outputs| == |rows| && i < |outputs| && IsValid(outputs[i].entry)
    requires WellMade(t.codec, good, before, rows[i], outputs[i])
    requires SameReport(outputs[i].entry, target) && outputs[i].entry.headSha == target.headSha && outputs[i].entry.analyzedSha == target.analyzedSha
    ensures (|before.targets| == 1 && SameReport(before.targets[0], target)) || MadeInRun(t.codec, good, before, rows, outputs, target)
  {
    if CarriedOver(before, outputs[i].entry) {
      CarriedFollows(before, outputs[i].entry, target);
    }
  }

  lemma NextFollows(t: Tools, good: Documents -> bool, s: Store, rows: seq<Row>, ctx: Context, outputs: seq<Output>)
    requires Sound(t.codec, good, s) && Made(t, good, s, rows, outputs)
    ensures Follows(t.codec, good, s.manifest, rows, outputs, NextManifest(s.manifest, ctx, outputs))
  {
    var m := NextManifest(s.manifest, ctx, outputs);
    var choice := Choose(s.manifest, ctx, ValidEntries(outputs));
    ChosenFrom(s.manifest, ctx, outputs);
    if choice.FromRun? {
      var i :| 0 <= i < |outputs| && outputs[i].entry == choice.entry && IsValid(choice.entry);
      assert m.targets == [Canonical(outputs[i].entry, ctx.canonicalId)];
      ValidFollows(t, good, s.manifest, rows, outputs, i, m.targets[0]);
    } else {
      RetainedFollows(s.manifest, ctx, outputs);
    }
  }

  lemma RetainedFollows(before: Current, ctx: Context, outputs: seq<Output>)
    requires Single(before) && !Choose(before, ctx, ValidEntries(outputs)).FromRun?
    ensures var after := NextManifest(before, ctx, outputs);
            |after.targets| == |before.targets| && (|after.targets| == 1 ==> SameReport(before.targets[0], after.targets[0]))
  {
    PriorIn(before);
  }

  /** A run that committed moved on by `Follows`, an interrupted one left the manifest alone. */
  lemma RunManifest(s: Store, effects: seq<Effect>, uploads: map<string, Bytes>, m: Current, gone: set<string>)
    requires Disciplined(effects, uploads, m, gone)
    ensures ApplyAll(s, effects).manifest == s.manifest || ApplyAll(s, effects).manifest == m
  {
    if PutsFrom(effects, uploads) {
      UntouchedManifest(s, effects, uploads);
    } else {
      var puts, deletes :| PutsAll(puts, uploads) && DeletesOf(deletes, gone) && effects == puts + [Commit(m)] + deletes;
      ApplyOne(s, puts, Commit(m));
      ApplyMore(s, puts + [Commit(m)], deletes);
      DeletionsKeepManifest(ApplyAll(s, puts + [Commit(m)]), deletes, gone);
    }
  }

  // ----- any number of runs

  datatype Run = Run(rows: seq<Row>, ctx: Context, outputs: seq<Output>, effects: seq<Effect>)

  ghost predicate History(t: Tools, good: Documents -> bool, arriving: Arrival, runs: seq<Run>, states: seq<Store>) {
    && |states| == |runs| + 1 && states[0] == Store(map[], EMPTY)
    && forall i :: 0 <= i < |runs| ==> Ran(t, good, arriving, runs[i], states[i], states[i + 1])
  }

  ghost predicate Ran(t: Tools, good: Documents -> bool, arriving: Arrival, run: Run, before: Store, after: Store) {
    && GoodRows(arriving, run.rows) && RunStep(t, before, run.rows, run.ctx, run.outputs, run.effects)
    && after == ApplyAll(before, run.effects)
  }

  lemma EmptySound(c: Codec, good: Documents -> bool)
    ensures Sound(c, good, Store(map[], EMPTY))
  {
  }

  /** Every reachable storage is sound. */
  lemma {:induction false} HistorySound(t: Tools, good: Documents -> bool, arriving: Arrival, runs: seq<Run>, states: seq<Store>, n: nat)
    requires CodecLaws(t.codec) && Tidy(t, good, arriving) && History(t, good, arriving, runs, states) && n < |states|
    ensures Sound(t.codec, good, states[n])
  {
    if n == 0 {
      EmptySound(t.codec, good);
    } else {
      HistorySound(t, good, arriving, runs, states, n - 1);
      assert Ran(t, good, arriving, runs[n - 1], states[n - 1], states[n]);
      RunKeepsSound(t, good, arriving, states[n - 1], runs[n - 1].rows, runs[n - 1].ctx, runs[n - 1].outputs, runs[n - 1].effects);
    }
  }

  /** And so is every storage in the middle of a run. */
  lemma HistoryMomentSound(t: Tools, good: Documents -> bool, arriving: Arrival, runs: seq<Run>, states: seq<Store>, n: nat, k: nat)
    requires CodecLaws(t.codec) && Tidy(t, good, arriving) && History(t, good, arriving, runs, states)
    requires n < |runs| && k <= |runs[n].effects|
    ensures Sound(t.codec, good, ApplyAll(states[n], runs[n].effects[..k]))
  {
    HistorySound(t, good, arriving, runs, states, n);
    assert Ran(t, good, arriving, runs[n], states[n], states[n + 1]);
    EveryMomentSound(t, good, arriving, states[n], runs[n].rows, runs[n].ctx, runs[n].outputs, runs[n].effects, k);
  }

  /** One run's manifests: unchanged, or followed by a manifest with the same report or a new one. */
  lemma StepFollows(t: Tools, good: Documents -> bool, arriving: Arrival, runs: seq<Run>, states: seq<Store>, n: nat)
    requires CodecLaws(t.codec) && Tidy(t, good, arriving) && History(t, good, arriving, runs, states) && n < |runs|
    ensures states[n + 1].manifest == states[n].manifest
         || Follows(t.codec, good, states[n].manifest, runs[n].rows, runs[n].outputs, states[n + 1].manifest)
  {
    HistorySound(t, good, arriving, runs, states, n);
    var s, run := states[n], runs[n];
    assert Ran(t, good, arriving, run, s, states[n + 1]);
    var m := NextManifest(s.manifest, run.ctx, run.outputs);
    RunMade(t, good, arriving, s, run.rows, run.outputs);
    RunManifest(s, run.effects, Uploads(run.outputs, m), m, Refs(s.manifest) - Refs(m));
    NextFollows(t, good, s, run.rows, run.ctx, run.outputs);
  }

  /** Once a report is published, every later state has exactly one current report, and it can be read. */
  lemma {:induction false} NeverLost(t: Tools, good: Documents -> bool, arriving: Arrival, runs: seq<Run>, states: seq<Store>, a: nat, b: nat, r: Option<Documents>)
    requires CodecLaws(t.codec) && Tidy(t, good, arriving) && History(t, good, arriving, runs, states)
    requires a <= b < |states| && |states[a].manifest.targets| == 1
    requires |states[b].manifest.targets| == 1 ==> Loaded(t.codec, states[b].blobs, states[b].manifest.targets[0].assets, r)
    ensures var m := states[b].manifest;
            && |m.targets| == 1 && m.currentId == Some(m.targets[0].id)
            && r.Some? && good(r.value) && r.value.Keys == m.targets[0].documents.Keys
  {
    StaysOne(t, good, arriving, runs, states, a, b);
    HistorySound(t, good, arriving, runs, states, b);
    var s := states[b];
    var target := s.manifest.targets[0];
    assert EntryStored(t.codec, good, s.blobs, target);
    var docs :| Holding(t.codec, s.blobs, target.documents, target.assets, docs) && good(AsMap(docs));
    LoadRecovers(t.codec, s.blobs, target.documents, target.assets, docs, r);
    ShardTheorems.AsMapFacts(docs);
  }

  predicate HasCurrent(s: Store) {
    |s.manifest.targets| == 1
  }

  lemma {:induction false} KeptFrom(states: seq<Store>, a: nat, b: nat)
    requires forall n :: 0 <= n < |states| - 1 && HasCurrent(states[n]) ==> HasCurrent(states[n + 1])
    requires a <= b < |states| && HasCurrent(states[a])
    ensures HasCurrent(states[b])
  {
    if a < b {
      KeptFrom(states, a, b - 1);
    }
  }

  lemma StaysOne(t: Tools, good: Documents -> bool, arriving: Arrival, runs: seq<Run>, states: seq<Store>, a: nat, b: nat)
    requires CodecLaws(t.codec) && Tidy(t, good, arriving) && History(t, good, arriving, runs, states)
    requires a <= b < |states| && |states[a].manifest.targets| == 1
    ensures |states[b].manifest.targets| == 1
  {
    forall n | 0 <= n < |states| - 1 && HasCurrent(states[n]) ensures HasCurrent(states[n + 1]) {
      StepKeepsOne(t, good, arriving, runs, states, n);
    }
    KeptFrom(states, a, b);
  }

  lemma StepKeepsOne(t: Tools, good: Documents -> bool, arriving: Arrival, runs: seq<Run>, states: seq<Store>, n: nat)
    requires CodecLaws(t.codec) && Tidy(t, good, arriving) && History(t, good, arriving, runs, states) && n < |runs|
    ensures |states[n].manifest.targets| == 1 ==> |states[n + 1].manifest.targets| == 1
  {
    StepFollows(t, good, arriving, runs, states, n);
    if |states[n].manifest.targets| == 1 {
      OneFollows(t.codec, good, states[n].manifest, runs[n].rows, runs[n].outputs, states[n + 1].manifest);
    }
  }

  lemma OneFollows(c: Codec, good: Documents -> bool, before: Current, rows: seq<Row>, outputs: seq<Output>, after: Current)
    requires |before.targets| == 1 && (after == before || Follows(c, good, before, rows, outputs, after))
    ensures |after.targets| == 1
  {
  }

  // ----- no leftovers

  lemma {:induction false} PutKeys(s: Store, puts: seq<Effect>, data: map<string, Bytes>)
    requires PutsFrom(puts, data)
    ensures s.blobs.Keys <= ApplyAll(s, puts).blobs.Keys <= s.blobs.Keys + data.Keys
  {
    if puts != [] {
      PutKeys(s, puts[..|puts| - 1], data);
    }
  }

  lemma {:induction false} DeleteKeys(s: Store, deletes: seq<Effect>, names: set<string>, name: string)
    requires DeletesOf(deletes, names)
    ensures name in ApplyAll(s, deletes).blobs <==> name in s.blobs && Delete(name) !in deletes
  {
    if deletes != [] {
      var front, last := deletes[..|deletes| - 1], deletes[|deletes| - 1];
      DeleteKeys(s, front, names, name);
      assert Delete(name) in deletes <==> Delete(name) in front || last == Delete(name);
    }
  }

  lemma UploadsReferred(outputs: seq<Output>, m: Current)
    ensures Uploads(outputs, m).Keys <= Refs(m)
  {
  }

  /** Deletions after the commit leave exactly the names that were not to go. */
  lemma DeletedKeys(s: Store, deletes: seq<Effect>, gone: set<string>)
    requires DeletesAll(deletes, gone)
    ensures ApplyAll(s, deletes).blobs.Keys == s.blobs.Keys - gone
  {
    forall name ensures name in ApplyAll(s, deletes).blobs <==> name in s.blobs && name !in gone {
      DeleteKeys(s, deletes, gone, name);
      if Delete(name) in deletes {
        var i :| 0 <= i < |deletes| && deletes[i] == Delete(name);
        assert deletes[i].name in gone;
      }
    }
  }

  lemma HoldsRefs(c: Codec, good: Documents -> bool, blobs: map<string, Bytes>, m: Current)
    requires Holds(c, good, blobs, m)
    ensures Refs(m) <= blobs.Keys
  {
    forall name | name in Refs(m) ensures name in blobs {
      RefAddressed(c, good, blobs, m, name);
    }
  }

  /** The names stored at the commit. */
  lemma CommittedKeys(t: Tools, good: Documents -> bool, s: Store, rows: seq<Row>, ctx: Context, outputs: seq<Output>, puts: seq<Effect>)
    requires CodecLaws(t.codec) && Sound(t.codec, good, s) && Made(t, good, s, rows, outputs)
    requires PutsAll(puts, Uploads(outputs, NextManifest(s.manifest, ctx, outputs)))
    ensures var m := NextManifest(s.manifest, ctx, outputs);
            var keys := ApplyAll(s, puts).blobs.Keys;
            Uploads(outputs, m).Keys <= Refs(m) <= keys <= s.blobs.Keys + Uploads(outputs, m).Keys
  {
    var m := NextManifest(s.manifest, ctx, outputs);
    CommittedSound(t, good, s, rows, ctx, outputs, puts);
    PutKeys(s, puts, Uploads(outputs, m));
    UploadsReferred(outputs, m);
    HoldsRefs(t.codec, good, ApplyAll(s, puts).blobs, m);
  }

  lemma DeletionEnds(s: Store, puts: seq<Effect>, m: Current, deletes: seq<Effect>, gone: set<string>)
    requires DeletesAll(deletes, gone)
    ensures var after := ApplyAll(s, puts + [Commit(m)] + deletes);
            after.manifest == m && after.blobs.Keys == ApplyAll(s, puts).blobs.Keys - gone
  {
    var committed := ApplyAll(s, puts + [Commit(m)]);
    ApplyOne(s, puts, Commit(m));
    ApplyMore(s, puts + [Commit(m)], deletes);
    DeletedKeys(committed, deletes, gone);
    DeletionsKeepManifest(committed, deletes, gone);
  }

  /** A run that comes to its end, started on a storage without leftovers, leaves none:
      storage holds exactly the names its manifest refers to. */
  lemma NoLeftovers(t: Tools, good: Documents -> bool, arriving: Arrival, s: Store, rows: seq<Row>, ctx: Context, outputs: seq<Output>, effects: seq<Effect>)
    requires CodecLaws(t.codec) && Tidy(t, good, arriving) && Sound(t.codec, good, s) && GoodRows(arriving, rows)
    requires WholeRun(t, s, rows, ctx, outputs, effects)
    requires s.blobs.Keys == Refs(s.manifest)
    ensures var after := ApplyAll(s, effects);
            after.manifest == NextManifest(s.manifest, ctx, outputs) && after.blobs.Keys == Refs(after.manifest)
  {
    var m := NextManifest(s.manifest, ctx, outputs);
    var gone := Refs(s.manifest) - Refs(m);
    RunMade(t, good, arriving, s, rows, outputs);
    var puts, deletes :| PutsAll(puts, Uploads(outputs, m)) && DeletesAll(deletes, gone) && effects == puts + [Commit(m)] + deletes;
    CommittedKeys(t, good, s, rows, ctx, outputs, puts);
    DeletionEnds(s, puts, m, deletes, gone);
    ExactKeys(s.blobs.Keys, ApplyAll(s, puts).blobs.Keys, Refs(s.manifest), Refs(m), Uploads(outputs, m).Keys);
  }

  lemma ExactKeys(before: set<string>, after: set<string>, refs: set<string>, refs': set<string>, uploads: set<string>)
    requires before == refs && after <= before + uploads && uploads <= refs' <= after
    ensures after - (refs - refs') == refs'
  {
  }

  // ----- which report is chosen

  ghost predicate NoneNewer(valid: seq<Entry>, best: Entry) {
    forall e :: e in valid ==> !Newer(e, best)
  }

  lemma NewerTransitive(a: Entry, b: Entry, c: Entry)
    requires !Newer(a, b) && Newer(c, b)
    ensures !Newer(a, c)
  {
    Ordering.StrTotalOrder();
  }

  lemma NotNewerThanItself(a: Entry)
    ensures !Newer(a, a)
  {
  }

  lemma {:induction false} NewestIsNewest(valid: seq<Entry>)
    requires valid != []
    ensures NoneNewer(valid, Newest(valid))
  {
    var front, last := valid[..|valid| - 1], valid[|valid| - 1];
    NotNewerThanItself(last);
    if front != [] {
      NewestIsNewest(front);
      forall e | e in valid ensures !Newer(e, Newest(valid)) {
        assert e in front || e == last;
        if e in front && Newer(last, Newest(front)) {
          NewerTransitive(e, Newest(front), last);
        }
      }
    } else {
      assert valid == [last];
    }
  }

  /** The chosen entry answers the last request if any valid one does; otherwise no valid entry
      is newer; the report on show is retained exactly when the run has no valid entry. */
  lemma ChoiceExact(previous: Current, ctx: Context, valid: seq<Entry>)
    ensures var choice := Choose(previous, ctx, valid);
            && (choice.FromRun? <==> valid != [])
            && (choice.FromRun? ==> choice.entry in valid)
            && ((exists e :: e in valid && Answers(ctx, e)) ==> Answers(ctx, choice.entry))
            && (choice.FromRun? && !Answers(ctx, choice.entry) ==> NoneNewer(valid, choice.entry))
            && (choice.Retained? <==> valid == [] && PriorCurrent(previous).Some?)
  {
    AnsweringIn(ctx, valid);
    if valid != [] {
      NewestIn(valid);
      NewestIsNewest(valid);
    }
  }
}
