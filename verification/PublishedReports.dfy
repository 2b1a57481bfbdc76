/** Merge, shards and publication together: whatever sequence of runs and interruptions, the report
    on show is one that accounts for its observations and that the consumer accepts. */
module PublishedReports {
  import opened Sequences
  import opened Text
  import Shard
  import Canonical
  import opened Accounting
  import opened Merge
  import opened MergeTheorems
  import opened MergeAccounts
  import opened MergeRuns
  import opened MergeDocuments
  import P = Publication
  import T = PublicationTheorems
  import R = PublicationRuns

  /** Reading a report set out of its documents. */
  type Reader = T.Documents -> ReportSet

  /** A report that may be on show. */
  ghost predicate Good(w: World, channels: set<string>, read: Reader, d: T.Documents) {
    Sound(read(d)) && Current(w, channels, read(d).snapshot)
  }

  /** A report that may arrive for the selected channels. */
  ghost predicate Arrives(w: World, channels: set<string>, read: Reader, d: T.Documents, selected: seq<string>) {
    Good(w, channels, read, d) && Admissible(w, channels, Step(read(d).snapshot, selected))
  }

  /** The report set that `merge_channel_documents` builds from two others. */
  ghost predicate IsMerge(old_: ReportSet, new_: ReportSet, selected: seq<string>, r: ReportSet) {
    Keyed(old_.snapshot) && Keyed(new_.snapshot) ==>
      var m := MergeSnapshots(old_.snapshot, new_.snapshot, selected);
      assert NoDup(Canonical.Ids(m.observations)) by { MergedIdsDistinct(old_.snapshot, new_.snapshot, selected); }
      r == MergedSet(m, Unmet(new_.snapshot, selected))
  }

  /** The publisher's merge is `merge_channel_documents`. */
  ghost predicate Merges(t: P.Tools, read: Reader, previous: T.Documents, docs: seq<Shard.Document>, selected: seq<string>) {
    var merged := t.merge(previous, docs, selected);
    merged.Some? ==>
      NoDup(Shard.Paths(merged.value.0))
      && IsMerge(read(previous), read(Shard.AsMap(docs)), selected, read(Shard.AsMap(merged.value.0)))
  }

  /** Derived documents are added beside the report and do not disturb the reading. */
  ghost predicate Finishes(t: P.Tools, read: Reader, docs: seq<Shard.Document>) {
    NoDup(Shard.Paths(docs)) ==>
      NoDup(Shard.Paths(t.finish(docs))) && read(Shard.AsMap(t.finish(docs))) == read(Shard.AsMap(docs))
  }

  ghost predicate ReportTools(t: P.Tools, read: Reader) {
    && (forall previous, docs, selected :: Merges(t, read, previous, docs, selected))
    && (forall docs :: Finishes(t, read, docs))
  }

  ghost function GoodFor(w: World, channels: set<string>, read: Reader): T.Documents -> bool {
    d => Good(w, channels, read, d)
  }

  ghost function ArrivesFor(w: World, channels: set<string>, read: Reader): T.Arrival {
    (d, selected) => Arrives(w, channels, read, d, selected)
  }

  lemma MergeStaysGood(w: World, channels: set<string>, read: Reader, t: P.Tools, previous: T.Documents, docs: seq<Shard.Document>, selected: seq<string>)
    requires ReportTools(t, read) && Good(w, channels, read, previous) && Arrives(w, channels, read, Shard.AsMap(docs), selected)
    requires t.merge(previous, docs, selected).Some?
    ensures var merged := t.merge(previous, docs, selected).value.0;
            NoDup(Shard.Paths(merged)) && Good(w, channels, read, Shard.AsMap(merged))
  {
    var old_, new_ := read(previous), read(Shard.AsMap(docs));
    assert Merges(t, read, previous, docs, selected);
    AccountsKeyed(old_.snapshot);
    LanePureIsHeld(w, old_.snapshot, new_.snapshot, selected);
    OneStep(w, channels, old_.snapshot, Step(new_.snapshot, selected));
    MergeKeepsSound(w, old_, new_, selected);
  }

  lemma ToolsAreTidy(w: World, channels: set<string>, read: Reader, t: P.Tools)
    requires ReportTools(t, read)
    ensures T.Tidy(t, GoodFor(w, channels, read), ArrivesFor(w, channels, read))
  {
    forall docs, selected | NoDup(Shard.Paths(docs)) && ArrivesFor(w, channels, read)(Shard.AsMap(docs), selected)
      ensures NoDup(Shard.Paths(t.finish(docs))) && GoodFor(w, channels, read)(Shard.AsMap(t.finish(docs)))
    {
      assert Finishes(t, read, docs);
    }
    forall previous, docs, selected |
      NoDup(Shard.Paths(docs)) && GoodFor(w, channels, read)(previous) && ArrivesFor(w, channels, read)(Shard.AsMap(docs), selected)
      && t.merge(previous, docs, selected).Some?
      ensures var merged := t.finish(t.merge(previous, docs, selected).value.0);
              NoDup(Shard.Paths(merged)) && GoodFor(w, channels, read)(Shard.AsMap(merged))
    {
      MergeStaysGood(w, channels, read, t, previous, docs, selected);
      assert Finishes(t, read, t.merge(previous, docs, selected).value.0);
    }
  }

  lemma ShownIsGood(good: T.Documents -> bool, arriving: T.Arrival, t: P.Tools, runs: seq<R.Run>, states: seq<P.Store>, n: nat,
                    loaded: Option<T.Documents>)
    requires Shard.CodecLaws(t.codec) && T.Tidy(t, good, arriving) && R.History(t, good, arriving, runs, states)
    requires n < |states| && states[n].manifest.targets != []
    requires P.Loaded(t.codec, states[n].blobs, states[n].manifest.targets[0].assets, loaded)
    ensures |states[n].manifest.targets| == 1 && loaded.Some? && good(loaded.value)
  {
    R.HistorySound(t, good, arriving, runs, states, n);
    R.NeverLost(t, good, arriving, runs, states, n, n, loaded);
  }

  /** In every reachable state the report on show loads, whatever order its assets are read in, as
      documents whose report is sound. */
  lemma ShownReportIsSound(w: World, channels: set<string>, read: Reader, t: P.Tools, runs: seq<R.Run>, states: seq<P.Store>,
                           n: nat, loaded: Option<T.Documents>)
    requires Shard.CodecLaws(t.codec) && ReportTools(t, read)
    requires R.History(t, GoodFor(w, channels, read), ArrivesFor(w, channels, read), runs, states)
    requires n < |states| && states[n].manifest.targets != []
    requires P.Loaded(t.codec, states[n].blobs, states[n].manifest.targets[0].assets, loaded)
    ensures |states[n].manifest.targets| == 1
    ensures loaded.Some? && Sound(read(loaded.value)) && Current(w, channels, read(loaded.value).snapshot)
  {
    ToolsAreTidy(w, channels, read, t);
    ShownIsGood(GoodFor(w, channels, read), ArrivesFor(w, channels, read), t, runs, states, n, loaded);
  }
}
