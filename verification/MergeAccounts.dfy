/** The merged snapshot accounts for its observations exactly when the two conditions of
    `MergeTheorems` hold. */
module MergeAccounts {
  import opened Sequences
  import opened Ordering
  import opened Text
  import opened Canonical
  import opened CanonicalTheorems
  import opened Accounting
  import opened Hosted
  import opened Merge
  import opened MergeFindings
  import opened MergeTheorems

  // ----- channels

  lemma RowKnown(s: Snapshot, row: ChannelRow, id: string)
    requires ChannelsAccount(s) && row in s.channels && id in row.observationIds
    ensures id in Ids(s.observations)
  {
    var i :| 0 <= i < |s.channels| && s.channels[i] == row;
    FlattenMembers(ChannelIds(s.channels));
    assert id in ChannelIds(s.channels)[i];
  }

  lemma RowNoDup(s: Snapshot, row: ChannelRow)
    requires ChannelsAccount(s) && row in s.channels
    ensures NoDup(row.observationIds) && row.observationCount == |row.observationIds|
  {
    var i :| 0 <= i < |s.channels| && s.channels[i] == row;
    FlattenNoDupRows(ChannelIds(s.channels));
    assert ChannelIds(s.channels)[i] == row.observationIds;
  }

  lemma IdOwnerLists(w: World, s: Snapshot, id: string) returns (row: ChannelRow)
    requires Accounts(s) && Respects(w, s) && id in Ids(s.observations)
    ensures row in s.channels && id in row.observationIds && row.channel == w.owner(w.family(id))
  {
    IdMeans(s.observations, id);
    var o :| o in s.observations && o.observationId == id;
    row := OwnerLists(w, s, o);
  }

  ghost function MergedRow(old_: Snapshot, new_: Snapshot, selected: seq<string>, c: string): ChannelRow
    requires Keyed(old_) && Keyed(new_) && (c in RowsByName(old_.channels) || c in RowsByName(new_.channels))
  {
    MergeChannel(c, RowsByName(old_.channels), RowsByName(new_.channels), selected, Lanes(new_, selected))
  }

  lemma RespectedRow(w: World, s: Snapshot, c: string)
    requires Accounts(s) && Respects(w, s) && Keyed(s) && c in RowsByName(s.channels)
    ensures var row := RowsByName(s.channels)[c];
            row.channel == c && RowRespects(w, row) && NoDup(row.observationIds) && row.observationCount == |row.observationIds|
  {
    RowNoDup(s, RowsByName(s.channels)[c]);
    assert RowsByName(s.channels)[c] in s.channels;
  }

  /** The row that a merged row was taken from. */
  lemma MergedRowCopies(old_: Snapshot, new_: Snapshot, selected: seq<string>, c: string)
    requires Keyed(old_) && Keyed(new_) && (c in RowsByName(old_.channels) || c in RowsByName(new_.channels))
    ensures var row, oldRows, newRows := MergedRow(old_, new_, selected, c), RowsByName(old_.channels), RowsByName(new_.channels);
            var source := if c in Lanes(new_, selected) || c !in oldRows then newRows[c] else oldRows[c];
            SameLane(row, source)
  {
  }

  predicate SameLane(a: ChannelRow, b: ChannelRow) {
    a.channel == b.channel && a.name == b.name && a.observationIds == b.observationIds && a.observationCount == b.observationCount
  }

  lemma SameLaneRespects(w: World, a: ChannelRow, b: ChannelRow)
    requires SameLane(a, b) && RowRespects(w, b)
    ensures RowRespects(w, a)
  {
  }

  /** Where a merged row takes its observations from. */
  lemma MergedRowFacts(w: World, old_: Snapshot, new_: Snapshot, selected: seq<string>, c: string)
    requires Ready(w, old_, new_)
    requires c in RowsByName(old_.channels) || c in RowsByName(new_.channels)
    ensures var row, oldRows, newRows := MergedRow(old_, new_, selected, c), RowsByName(old_.channels), RowsByName(new_.channels);
            && row.channel == c && RowRespects(w, row)
            && NoDup(row.observationIds) && row.observationCount == |row.observationIds|
            && row.observationIds == if c in Lanes(new_, selected) || c !in oldRows then newRows[c].observationIds else oldRows[c].observationIds
  {
    var oldRows, newRows := RowsByName(old_.channels), RowsByName(new_.channels);
    MergedRowCopies(old_, new_, selected, c);
    if c in Lanes(new_, selected) || c !in oldRows {
      RespectedRow(w, new_, c);
      SameLaneRespects(w, MergedRow(old_, new_, selected, c), newRows[c]);
    } else {
      RespectedRow(w, old_, c);
      SameLaneRespects(w, MergedRow(old_, new_, selected, c), oldRows[c]);
    }
  }

  ghost predicate MergedLists(old_: Snapshot, new_: Snapshot, selected: seq<string>, c: string, id: string)
    requires Keyed(old_) && Keyed(new_)
  {
    (c in RowsByName(old_.channels) || c in RowsByName(new_.channels)) && id in MergedRow(old_, new_, selected, c).observationIds
  }

  lemma MergedChannelAt(old_: Snapshot, new_: Snapshot, selected: seq<string>, i: nat)
    requires Keyed(old_) && Keyed(new_) && i < |ChannelUnion(old_, new_)|
    ensures var m, c := MergeSnapshots(old_, new_, selected), ChannelUnion(old_, new_)[i];
            && |m.channels| == |ChannelUnion(old_, new_)|
            && (c in RowsByName(old_.channels) || c in RowsByName(new_.channels))
            && m.channels[i] == MergedRow(old_, new_, selected, c)
  {
    ChannelUnionFacts(old_, new_);
    assert ChannelUnion(old_, new_)[i] in ChannelUnion(old_, new_);
  }

  lemma RowsList(channels: seq<ChannelRow>, id: string)
    ensures id in Flatten(ChannelIds(channels)) <==> exists i :: 0 <= i < |channels| && id in channels[i].observationIds
  {
    FlattenMembers(ChannelIds(channels));
    if id in Flatten(ChannelIds(channels)) {
      var i :| 0 <= i < |ChannelIds(channels)| && id in ChannelIds(channels)[i];
      assert id in channels[i].observationIds;
    }
    if i :| 0 <= i < |channels| && id in channels[i].observationIds {
      assert id in ChannelIds(channels)[i];
    }
  }

  lemma ListedMeansMerged(old_: Snapshot, new_: Snapshot, selected: seq<string>, id: string) returns (c: string)
    requires Keyed(old_) && Keyed(new_)
    requires id in Flatten(ChannelIds(MergeSnapshots(old_, new_, selected).channels))
    ensures MergedLists(old_, new_, selected, c, id)
  {
    var channels := MergeSnapshots(old_, new_, selected).channels;
    RowsList(channels, id);
    var i :| 0 <= i < |channels| && id in channels[i].observationIds;
    c := ChannelUnion(old_, new_)[i];
    MergedChannelAt(old_, new_, selected, i);
  }

  lemma MergedMeansListed(old_: Snapshot, new_: Snapshot, selected: seq<string>, c: string, id: string)
    requires Keyed(old_) && Keyed(new_) && MergedLists(old_, new_, selected, c, id)
    ensures id in Flatten(ChannelIds(MergeSnapshots(old_, new_, selected).channels))
  {
    var names := ChannelUnion(old_, new_);
    ChannelUnionFacts(old_, new_);
    var i :| 0 <= i < |names| && names[i] == c;
    MergedChannelAt(old_, new_, selected, i);
    RowsList(MergeSnapshots(old_, new_, selected).channels, id);
  }

  lemma MergedRowsDisjoint(w: World, old_: Snapshot, new_: Snapshot, selected: seq<string>)
    requires Ready(w, old_, new_)
    ensures NoDup(Flatten(ChannelIds(MergeSnapshots(old_, new_, selected).channels)))
  {
    var channels := MergeSnapshots(old_, new_, selected).channels;
    var names := ChannelUnion(old_, new_);
    ChannelUnionFacts(old_, new_);
    forall i | 0 <= i < |names|
      ensures NoDup(ChannelIds(channels)[i]) && forall id :: id in ChannelIds(channels)[i] ==> w.owner(w.family(id)) == names[i]
    {
      MergedChannelAt(old_, new_, selected, i);
      MergedRowFacts(w, old_, new_, selected, names[i]);
    }
    FlattenNoDup(ChannelIds(channels));
  }

  /** A merged channel row lists a kept observation. */
  lemma KeptIsListed(w: World, old_: Snapshot, new_: Snapshot, selected: seq<string>, id: string)
    requires Ready(w, old_, new_) && Kept(w, old_, new_, selected, id)
    ensures id in Flatten(ChannelIds(MergeSnapshots(old_, new_, selected).channels))
  {
    var row := IdOwnerLists(w, if Owned(w, new_, selected, id) then new_ else old_, id);
    MergedRowFacts(w, old_, new_, selected, row.channel);
    MergedMeansListed(old_, new_, selected, row.channel, id);
  }

  lemma ListedIsKept(w: World, old_: Snapshot, new_: Snapshot, selected: seq<string>, id: string)
    requires Ready(w, old_, new_) && StrangersEmpty(old_, new_, selected)
    requires id in Flatten(ChannelIds(MergeSnapshots(old_, new_, selected).channels))
    ensures Kept(w, old_, new_, selected, id)
  {
    var oldRows, newRows := RowsByName(old_.channels), RowsByName(new_.channels);
    var c := ListedMeansMerged(old_, new_, selected, id);
    MergedRowFacts(w, old_, new_, selected, c);
    if c in Lanes(new_, selected) {
      RowKnown(new_, newRows[c], id);
    } else if c in oldRows {
      RowKnown(old_, oldRows[c], id);
    }
  }

  /** In an accounted merge, what a row of an unreplaced channel lists is old evidence of an old channel. */
  lemma ListedElsewhereIsOld(w: World, old_: Snapshot, new_: Snapshot, selected: seq<string>, c: string, id: string)
    requires Ready(w, old_, new_) && ChannelsAccount(MergeSnapshots(old_, new_, selected))
    requires MergedLists(old_, new_, selected, c, id) && c !in Lanes(new_, selected)
    ensures c in ChannelNames(old_.channels)
  {
    MergedRowFacts(w, old_, new_, selected, c);
    MergedMeansListed(old_, new_, selected, c, id);
    MergedInventory(w, old_, new_, selected);
    var owner := IdOwnerLists(w, old_, id);
    assert owner.channel in RowsByName(old_.channels);
  }

  lemma StrangerListsNothing(w: World, old_: Snapshot, new_: Snapshot, selected: seq<string>, row: ChannelRow)
    requires Ready(w, old_, new_) && ChannelsAccount(MergeSnapshots(old_, new_, selected))
    requires row in new_.channels && row.channel !in ChannelNames(old_.channels) && row.channel !in Lanes(new_, selected)
    ensures row.observationIds == []
  {
    if row.observationIds != [] {
      MergedRowFacts(w, old_, new_, selected, row.channel);
      ListedElsewhereIsOld(w, old_, new_, selected, row.channel, row.observationIds[0]);
    }
  }

  lemma StrangersListNothing(w: World, old_: Snapshot, new_: Snapshot, selected: seq<string>)
    requires Ready(w, old_, new_) && ChannelsAccount(MergeSnapshots(old_, new_, selected))
    ensures StrangersEmpty(old_, new_, selected)
  {
    forall row | row in new_.channels && row.channel !in ChannelNames(old_.channels) && row.channel !in Lanes(new_, selected)
      ensures row.observationIds == []
    {
      StrangerListsNothing(w, old_, new_, selected, row);
    }
  }

  lemma MergedChannelsExact(w: World, old_: Snapshot, new_: Snapshot, selected: seq<string>)
    requires Ready(w, old_, new_)
    ensures ChannelsAccount(MergeSnapshots(old_, new_, selected)) <==> StrangersEmpty(old_, new_, selected)
  {
    if StrangersEmpty(old_, new_, selected) {
      MergedChannelsAccount(w, old_, new_, selected);
    }
    if ChannelsAccount(MergeSnapshots(old_, new_, selected)) {
      StrangersListNothing(w, old_, new_, selected);
    }
  }

  lemma MergedChannelsAccount(w: World, old_: Snapshot, new_: Snapshot, selected: seq<string>)
    requires Ready(w, old_, new_) && StrangersEmpty(old_, new_, selected)
    ensures ChannelsAccount(MergeSnapshots(old_, new_, selected))
  {
    var m := MergeSnapshots(old_, new_, selected);
    MergedInventory(w, old_, new_, selected);
    MergedRowsDisjoint(w, old_, new_, selected);
    forall id ensures id in Flatten(ChannelIds(m.channels)) <==> id in Ids(m.observations) {
      if Kept(w, old_, new_, selected, id) {
        KeptIsListed(w, old_, new_, selected, id);
      }
      if id in Flatten(ChannelIds(m.channels)) {
        ListedIsKept(w, old_, new_, selected, id);
      }
    }
    MergedNames(w, old_, new_, selected);
    UnionNames(old_, new_);
  }

  lemma MergedNames(w: World, old_: Snapshot, new_: Snapshot, selected: seq<string>)
    requires Ready(w, old_, new_)
    ensures var m := MergeSnapshots(old_, new_, selected);
            && ChannelNames(m.channels) == ChannelUnion(old_, new_)
            && (forall i :: 0 <= i < |m.channels| ==> m.channels[i].observationCount == |m.channels[i].observationIds|)
  {
    var channels := MergeSnapshots(old_, new_, selected).channels;
    var names := ChannelUnion(old_, new_);
    forall i | 0 <= i < |names|
      ensures |channels| == |names| && channels[i].channel == names[i]
      ensures channels[i].observationCount == |channels[i].observationIds|
    {
      MergedChannelAt(old_, new_, selected, i);
      MergedRowFacts(w, old_, new_, selected, names[i]);
    }
    assert |channels| == |names|;
    assert ChannelNames(channels) == names;
  }

  lemma UnionNames(old_: Snapshot, new_: Snapshot)
    requires Keyed(old_) && Keyed(new_) && ChannelsAccount(old_) && ChannelsAccount(new_)
    ensures var names := ChannelUnion(old_, new_); names != [] && NoDup(names) && "" !in names
  {
    ChannelUnionFacts(old_, new_);
    assert ChannelNames(old_.channels)[0] in ChannelNames(old_.channels);
    assert ChannelNames(old_.channels)[0] in ChannelUnion(old_, new_);
  }

  // ----- findings

  lemma HoldsAll(s: Snapshot, sid: string, id: string)
    ensures Holds(AllFindings(s), sid, id) <==> Holds(s.canonical, sid, id) || Holds(s.advisories, sid, id)
  {
    if Holds(AllFindings(s), sid, id) {
      var f :| f in AllFindings(s) && f.stableId == sid && id in f.observationIds;
    }
    if Holds(s.canonical, sid, id) {
      var f :| f in s.canonical && f.stableId == sid && id in f.observationIds;
      assert f in AllFindings(s);
    }
    if Holds(s.advisories, sid, id) {
      var f :| f in s.advisories && f.stableId == sid && id in f.observationIds;
      assert f in AllFindings(s);
    }
  }

  lemma HoldsFamilyAll(s: Snapshot, sid: string, family: string)
    ensures HoldsFamily(AllFindings(s), sid, family) <==> HoldsFamily(s.canonical, sid, family) || HoldsFamily(s.advisories, sid, family)
  {
    if HoldsFamily(AllFindings(s), sid, family) {
      var f :| f in AllFindings(s) && f.stableId == sid && family in f.families;
    }
    if HoldsFamily(s.canonical, sid, family) {
      var f :| f in s.canonical && f.stableId == sid && family in f.families;
      assert f in AllFindings(s);
    }
    if HoldsFamily(s.advisories, sid, family) {
      var f :| f in s.advisories && f.stableId == sid && family in f.families;
      assert f in AllFindings(s);
    }
  }

  lemma IncomingAll(s: Snapshot, families: set<string>, sid: string, id: string)
    ensures IncomingHolds(AllFindings(s), families, sid, id)
       <==> IncomingHolds(s.canonical, families, sid, id) || IncomingHolds(s.advisories, families, sid, id)
  {
    if IncomingHolds(AllFindings(s), families, sid, id) {
      var f :| Incoming(AllFindings(s), families, f) && f.stableId == sid && id in f.observationIds;
      assert Incoming(s.canonical, families, f) || Incoming(s.advisories, families, f);
    }
    if IncomingHolds(s.canonical, families, sid, id) {
      var f :| Incoming(s.canonical, families, f) && f.stableId == sid && id in f.observationIds;
      assert Incoming(AllFindings(s), families, f);
    }
    if IncomingHolds(s.advisories, families, sid, id) {
      var f :| Incoming(s.advisories, families, f) && f.stableId == sid && id in f.observationIds;
      assert Incoming(AllFindings(s), families, f);
    }
  }

  lemma IncomingFamilyAll(s: Snapshot, families: set<string>, sid: string, family: string)
    ensures IncomingHoldsFamily(AllFindings(s), families, sid, family)
       <==> IncomingHoldsFamily(s.canonical, families, sid, family) || IncomingHoldsFamily(s.advisories, families, sid, family)
  {
    if IncomingHoldsFamily(AllFindings(s), families, sid, family) {
      var f :| Incoming(AllFindings(s), families, f) && f.stableId == sid && family in f.families;
      assert Incoming(s.canonical, families, f) || Incoming(s.advisories, families, f);
    }
    if IncomingHoldsFamily(s.canonical, families, sid, family) {
      var f :| Incoming(s.canonical, families, f) && f.stableId == sid && family in f.families;
      assert Incoming(AllFindings(s), families, f);
    }
    if IncomingHoldsFamily(s.advisories, families, sid, family) {
      var f :| Incoming(s.advisories, families, f) && f.stableId == sid && family in f.families;
      assert Incoming(AllFindings(s), families, f);
    }
  }

  lemma SnapshotRows(s: Snapshot)
    requires FindingsAccount(s)
    ensures NoDup(StableIds(s.canonical)) && NoDup(StableIds(s.advisories))
    ensures RowsNoDup(AllFindings(s)) && RowsNoDup(s.canonical) && RowsNoDup(s.advisories)
    ensures HeldOnce(AllFindings(s))
    ensures forall id :: id in Ids(s.observations) <==> exists sid :: Holds(AllFindings(s), sid, id)
  {
    assert StableIds(AllFindings(s)) == StableIds(s.canonical) + StableIds(s.advisories);
    NoDupParts(StableIds(s.canonical), StableIds(s.advisories));
    PartitionsHeldOnce(AllFindings(s), Ids(s.observations));
    forall f | f in s.canonical || f in s.advisories ensures NoDup(f.observationIds) {
      assert f in AllFindings(s);
    }
  }

  lemma MergedHolds(old_: Snapshot, new_: Snapshot, selected: seq<string>, sid: string, id: string)
    requires Keyed(old_) && Keyed(new_) && FindingsAccount(old_) && FindingsAccount(new_)
    ensures var byId, families := MergedObservations(old_, new_, selected), LostFamilies(old_, new_, selected);
            Holds(AllFindings(MergeSnapshots(old_, new_, selected)), sid, id)
            <==> (Holds(AllFindings(old_), sid, id) && Stays(byId, families, id)) || IncomingHolds(AllFindings(new_), families, sid, id)
  {
    var byId, families := MergedObservations(old_, new_, selected), LostFamilies(old_, new_, selected);
    SnapshotRows(old_);
    SnapshotRows(new_);
    LaneHolds(old_.canonical, new_.canonical, byId, families, sid, id);
    LaneHolds(old_.advisories, new_.advisories, byId, families, sid, id);
    HoldsAll(old_, sid, id);
    HoldsAll(MergeSnapshots(old_, new_, selected), sid, id);
    IncomingAll(new_, families, sid, id);
  }

  lemma MergedHoldsFamily(old_: Snapshot, new_: Snapshot, selected: seq<string>, sid: string, family: string)
    requires Keyed(old_) && Keyed(new_) && FindingsAccount(old_) && FindingsAccount(new_)
    ensures var byId, families := MergedObservations(old_, new_, selected), LostFamilies(old_, new_, selected);
            HoldsFamily(AllFindings(MergeSnapshots(old_, new_, selected)), sid, family)
            <==> (HoldsFamily(AllFindings(old_), sid, family) && family !in families)
                 || IncomingHoldsFamily(AllFindings(new_), families, sid, family)
  {
    var byId, families := MergedObservations(old_, new_, selected), LostFamilies(old_, new_, selected);
    SnapshotRows(old_);
    SnapshotRows(new_);
    LaneHoldsFamily(old_.canonical, new_.canonical, byId, families, sid, family);
    LaneHoldsFamily(old_.advisories, new_.advisories, byId, families, sid, family);
    HoldsFamilyAll(old_, sid, family);
    HoldsFamilyAll(MergeSnapshots(old_, new_, selected), sid, family);
    IncomingFamilyAll(new_, families, sid, family);
  }

  /** Two lanes apart by their identities have distinct identities together. */
  lemma TwoLanes(w: World, canonical: seq<Finding>, advisories: seq<Finding>)
    requires NoDup(StableIds(canonical)) && NoDup(StableIds(advisories))
    requires forall f :: f in canonical ==> !w.advisory(f.stableId)
    requires forall f :: f in advisories ==> w.advisory(f.stableId)
    ensures NoDup(StableIds(canonical + advisories))
  {
    forall sid | sid in StableIds(canonical) ensures sid !in StableIds(advisories) {
      SidMeans(canonical, sid);
      SidMeans(advisories, sid);
    }
    NoDupAppend(StableIds(canonical), StableIds(advisories));
    assert StableIds(canonical + advisories) == StableIds(canonical) + StableIds(advisories);
  }

  lemma RowsTogether(a: seq<Finding>, b: seq<Finding>)
    requires RowsNoDup(a) && RowsNoDup(b)
    ensures RowsNoDup(a + b)
  {
  }

  /** One merged lane: distinct identities, all of the lane's kind. */
  lemma OneMergedLane(w: World, advisory: bool, old_: seq<Finding>, new_: seq<Finding>, byId: map<string, Observation>, families: set<string>)
    requires NoDup(StableIds(old_)) && RowsNoDup(old_) && RowsNoDup(new_)
    requires forall f :: f in old_ || f in new_ ==> w.advisory(f.stableId) == advisory
    ensures var m := MergeLane(old_, new_, byId, families);
            NoDup(StableIds(m)) && RowsNoDup(m) && forall f :: f in m ==> w.advisory(f.stableId) == advisory
  {
    LaneFacts(old_, new_, byId, families);
    LaneSids(w, advisory, old_, new_, MergeLane(old_, new_, byId, families));
  }

  lemma MergedLanes(w: World, old_: Snapshot, new_: Snapshot, selected: seq<string>)
    requires Ready(w, old_, new_)
    ensures var m := MergeSnapshots(old_, new_, selected);
            && NoDup(StableIds(AllFindings(m))) && RowsNoDup(AllFindings(m))
            && (forall f :: f in m.canonical ==> !w.advisory(f.stableId))
            && (forall f :: f in m.advisories ==> w.advisory(f.stableId))
  {
    var byId, families := MergedObservations(old_, new_, selected), LostFamilies(old_, new_, selected);
    var canonical := MergeLane(old_.canonical, new_.canonical, byId, families);
    var advisories := MergeLane(old_.advisories, new_.advisories, byId, families);
    SnapshotRows(old_);
    SnapshotRows(new_);
    OneMergedLane(w, false, old_.canonical, new_.canonical, byId, families);
    OneMergedLane(w, true, old_.advisories, new_.advisories, byId, families);
    TwoLanes(w, canonical, advisories);
    RowsTogether(canonical, advisories);
    MergedFindingsAre(old_, new_, selected);
  }

  lemma MergedFindingsAre(old_: Snapshot, new_: Snapshot, selected: seq<string>)
    requires Keyed(old_) && Keyed(new_)
    ensures var m := MergeSnapshots(old_, new_, selected);
            var byId, families := MergedObservations(old_, new_, selected), LostFamilies(old_, new_, selected);
            && m.canonical == MergeLane(old_.canonical, new_.canonical, byId, families)
            && m.advisories == MergeLane(old_.advisories, new_.advisories, byId, families)
            && AllFindings(m) == m.canonical + m.advisories
  {
  }

  lemma LaneSids(w: World, advisory: bool, old_: seq<Finding>, new_: seq<Finding>, merged: seq<Finding>)
    requires forall f :: f in old_ || f in new_ ==> w.advisory(f.stableId) == advisory
    requires forall sid :: sid in StableIds(merged) ==> sid in StableIds(old_) || sid in StableIds(new_)
    ensures forall f :: f in merged ==> w.advisory(f.stableId) == advisory
  {
    forall f | f in merged ensures w.advisory(f.stableId) == advisory {
      SidMeans(merged, f.stableId);
      SidMeans(old_, f.stableId);
      SidMeans(new_, f.stableId);
    }
  }

  lemma HeldIsObserved(s: Snapshot, sid: string, id: string)
    requires FindingsAccount(s) && Holds(AllFindings(s), sid, id)
    ensures id in Ids(s.observations)
  {
    SnapshotRows(s);
  }

  lemma IncomingIsHeld(new_: Snapshot, families: set<string>, sid: string, id: string)
    requires IncomingHolds(AllFindings(new_), families, sid, id)
    ensures Holds(AllFindings(new_), sid, id)
  {
    var f :| Incoming(AllFindings(new_), families, f) && f.stableId == sid && id in f.observationIds;
  }

  /** An observation of a replaced lane is held by an incoming finding that touches the lane. */
  lemma OwnedIsIncoming(w: World, old_: Snapshot, new_: Snapshot, selected: seq<string>, sid: string, id: string)
    requires Ready(w, old_, new_) && Owned(w, new_, selected, id) && Holds(AllFindings(new_), sid, id)
    ensures IncomingHolds(AllFindings(new_), LostFamilies(old_, new_, selected), sid, id)
  {
    var f :| f in AllFindings(new_) && f.stableId == sid && id in f.observationIds;
    HeldIsObserved(new_, sid, id);
    IdMeans(new_.observations, id);
    var o :| o in new_.observations && o.observationId == id;
    LostFamilyExact(w, old_, new_, selected, o);
    ObservedFamily(new_, f, o);
    var i :| 0 <= i < |f.families| && f.families[i] == o.family;
    assert Incoming(AllFindings(new_), LostFamilies(old_, new_, selected), f);
  }

  lemma ObservedFamily(s: Snapshot, f: Finding, o: Observation)
    requires FamiliesAccount(s) && f in AllFindings(s) && o in s.observations && o.observationId in f.observationIds
    ensures o.family in f.families
  {
    var i :| 0 <= i < |AllFindings(s)| && AllFindings(s)[i] == f;
    assert FamiliesOf(f, s.observations);
    var j :| 0 <= j < |s.observations| && s.observations[j] == o;
  }

  lemma FamilyObserved(s: Snapshot, f: Finding, family: string) returns (o: Observation)
    requires FamiliesAccount(s) && f in AllFindings(s) && family in f.families
    ensures o in s.observations && o.observationId in f.observationIds && o.family == family
  {
    var i :| 0 <= i < |AllFindings(s)| && AllFindings(s)[i] == f;
    assert FamiliesOf(f, s.observations);
    var j :| 0 <= j < |s.observations| && s.observations[j].observationId in f.observationIds && s.observations[j].family == family;
    o := s.observations[j];
  }

  /** What a merged finding holds, in terms of lanes. */
  lemma MergedHoldsByLane(w: World, old_: Snapshot, new_: Snapshot, selected: seq<string>, sid: string, id: string)
    requires Ready(w, old_, new_) && MixedHeld(w, old_, new_, selected)
    ensures Holds(AllFindings(MergeSnapshots(old_, new_, selected)), sid, id)
       <==> Holds(AllFindings(if Owned(w, new_, selected, id) then new_ else old_), sid, id)
  {
    var families := LostFamilies(old_, new_, selected);
    MergedHolds(old_, new_, selected, sid, id);
    if Holds(AllFindings(old_), sid, id) {
      HeldIsObserved(old_, sid, id);
      KeptMeansStays(w, old_, new_, selected, id);
    }
    if IncomingHolds(AllFindings(new_), families, sid, id) {
      IncomingIsHeld(new_, families, sid, id);
    }
    if Owned(w, new_, selected, id) && Holds(AllFindings(new_), sid, id) {
      OwnedIsIncoming(w, old_, new_, selected, sid, id);
    }
  }

  /** The snapshot that an observation comes from. */
  ghost function Side(w: World, old_: Snapshot, new_: Snapshot, selected: seq<string>, id: string): Snapshot
    requires Keyed(new_)
  {
    if Owned(w, new_, selected, id) then new_ else old_
  }

  lemma MergedHeldOnce(w: World, old_: Snapshot, new_: Snapshot, selected: seq<string>)
    requires Ready(w, old_, new_) && MixedHeld(w, old_, new_, selected)
    ensures HeldOnce(AllFindings(MergeSnapshots(old_, new_, selected)))
  {
    var m := MergeSnapshots(old_, new_, selected);
    forall a, b, id | Holds(AllFindings(m), a, id) && Holds(AllFindings(m), b, id) ensures a == b {
      MergedHoldsByLane(w, old_, new_, selected, a, id);
      MergedHoldsByLane(w, old_, new_, selected, b, id);
      SnapshotRows(Side(w, old_, new_, selected, id));
    }
  }

  lemma MergedObservedHeld(w: World, old_: Snapshot, new_: Snapshot, selected: seq<string>, id: string)
    requires Ready(w, old_, new_) && MixedHeld(w, old_, new_, selected)
    ensures Kept(w, old_, new_, selected, id) <==> exists sid :: Holds(AllFindings(MergeSnapshots(old_, new_, selected)), sid, id)
  {
    var side := Side(w, old_, new_, selected, id);
    SnapshotRows(side);
    if sid :| Holds(AllFindings(side), sid, id) {
      MergedHoldsByLane(w, old_, new_, selected, sid, id);
    }
    if sid :| Holds(AllFindings(MergeSnapshots(old_, new_, selected)), sid, id) {
      MergedHoldsByLane(w, old_, new_, selected, sid, id);
    }
  }

  lemma MergedFindingsAccount(w: World, old_: Snapshot, new_: Snapshot, selected: seq<string>)
    requires Ready(w, old_, new_) && MixedHeld(w, old_, new_, selected)
    ensures FindingsAccount(MergeSnapshots(old_, new_, selected))
  {
    var m := MergeSnapshots(old_, new_, selected);
    MergedInventory(w, old_, new_, selected);
    MergedLanes(w, old_, new_, selected);
    MergedHeldOnce(w, old_, new_, selected);
    forall id ensures id in Ids(m.observations) <==> exists sid :: Holds(AllFindings(m), sid, id) {
      MergedObservedHeld(w, old_, new_, selected, id);
    }
    HeldOncePartitions(AllFindings(m), Ids(m.observations));
  }

  /** An unowned observation of an accounted merge is old evidence. */
  lemma UnownedIsOld(w: World, old_: Snapshot, new_: Snapshot, selected: seq<string>, sid: string, id: string)
    requires Ready(w, old_, new_) && FindingsAccount(MergeSnapshots(old_, new_, selected))
    requires Holds(AllFindings(MergeSnapshots(old_, new_, selected)), sid, id) && !Owned(w, new_, selected, id)
    ensures id in Ids(old_.observations)
  {
    HeldIsObserved(MergeSnapshots(old_, new_, selected), sid, id);
    MergedInventory(w, old_, new_, selected);
  }

  lemma MixedMustBeHeld(w: World, old_: Snapshot, new_: Snapshot, selected: seq<string>, sid: string, id: string)
    requires Ready(w, old_, new_) && FindingsAccount(MergeSnapshots(old_, new_, selected))
    requires IncomingHolds(AllFindings(new_), LostFamilies(old_, new_, selected), sid, id) && !Owned(w, new_, selected, id)
    ensures Holds(AllFindings(old_), sid, id)
  {
    var m := MergeSnapshots(old_, new_, selected);
    MergedHolds(old_, new_, selected, sid, id);
    UnownedIsOld(w, old_, new_, selected, sid, id);
    SnapshotRows(old_);
    var other :| Holds(AllFindings(old_), other, id);
    KeptMeansStays(w, old_, new_, selected, id);
    MergedHolds(old_, new_, selected, other, id);
    HeldOnceIn(m, sid, other, id);
  }

  lemma HeldOnceIn(s: Snapshot, a: string, b: string, id: string)
    requires FindingsAccount(s) && Holds(AllFindings(s), a, id) && Holds(AllFindings(s), b, id)
    ensures a == b
  {
    SnapshotRows(s);
  }

  // ----- families

  lemma HoldsOf(findings: seq<Finding>, f: Finding, id: string)
    requires NoDup(StableIds(findings)) && f in findings
    ensures Holds(findings, f.stableId, id) <==> id in f.observationIds
  {
    if Holds(findings, f.stableId, id) {
      var g :| g in findings && g.stableId == f.stableId && id in g.observationIds;
      SameSid(findings, f, g);
    }
  }

  lemma HoldsFamilyOf(findings: seq<Finding>, f: Finding, family: string)
    requires NoDup(StableIds(findings)) && f in findings
    ensures HoldsFamily(findings, f.stableId, family) <==> family in f.families
  {
    if HoldsFamily(findings, f.stableId, family) {
      var g :| g in findings && g.stableId == f.stableId && family in g.families;
      SameSid(findings, f, g);
    }
  }

  /** A family of a merged finding comes with an observation that the finding holds. */
  lemma MergedFamilyHasEvidence(w: World, old_: Snapshot, new_: Snapshot, selected: seq<string>, sid: string, family: string)
      returns (id: string)
    requires Ready(w, old_, new_) && MixedHeld(w, old_, new_, selected)
    requires HoldsFamily(AllFindings(MergeSnapshots(old_, new_, selected)), sid, family)
    ensures Holds(AllFindings(MergeSnapshots(old_, new_, selected)), sid, id) && w.family(id) == family
  {
    var families := LostFamilies(old_, new_, selected);
    MergedHoldsFamily(old_, new_, selected, sid, family);
    if HoldsFamily(AllFindings(old_), sid, family) && family !in families {
      var g :| g in AllFindings(old_) && g.stableId == sid && family in g.families;
      var o := FamilyObserved(old_, g, family);
      id := o.observationId;
      IdMeans(old_.observations, id);
      LostFamilyExact(w, old_, new_, selected, o);
      KeptMeansStays(w, old_, new_, selected, id);
      MergedHolds(old_, new_, selected, sid, id);
    } else {
      var f :| Incoming(AllFindings(new_), families, f) && f.stableId == sid && family in f.families;
      var o := FamilyObserved(new_, f, family);
      id := o.observationId;
      MergedHolds(old_, new_, selected, sid, id);
    }
  }

  lemma MergedEvidenceHasFamily(w: World, old_: Snapshot, new_: Snapshot, selected: seq<string>, sid: string, id: string)
    requires Ready(w, old_, new_) && MixedHeld(w, old_, new_, selected)
    requires Holds(AllFindings(MergeSnapshots(old_, new_, selected)), sid, id)
    ensures HoldsFamily(AllFindings(MergeSnapshots(old_, new_, selected)), sid, w.family(id))
  {
    var families := LostFamilies(old_, new_, selected);
    MergedHoldsByLane(w, old_, new_, selected, sid, id);
    MergedHoldsFamily(old_, new_, selected, sid, w.family(id));
    if Owned(w, new_, selected, id) {
      OwnedIsIncoming(w, old_, new_, selected, sid, id);
      var f :| Incoming(AllFindings(new_), families, f) && f.stableId == sid && id in f.observationIds;
      HeldIsObserved(new_, sid, id);
      IdMeans(new_.observations, id);
      var o :| o in new_.observations && o.observationId == id;
      ObservedFamily(new_, f, o);
    } else {
      var g :| g in AllFindings(old_) && g.stableId == sid && id in g.observationIds;
      HeldIsObserved(old_, sid, id);
      IdMeans(old_.observations, id);
      var o :| o in old_.observations && o.observationId == id;
      ObservedFamily(old_, g, o);
      LostFamilyExact(w, old_, new_, selected, o);
    }
  }

  /** The evidence for a merged finding's family is listed and observed. */
  lemma MergedFamilyListed(w: World, old_: Snapshot, new_: Snapshot, selected: seq<string>, f: Finding, family: string) returns (id: string)
    requires Ready(w, old_, new_) && MixedHeld(w, old_, new_, selected)
    requires f in AllFindings(MergeSnapshots(old_, new_, selected)) && family in f.families
    ensures id in f.observationIds && id in Ids(MergeSnapshots(old_, new_, selected).observations) && w.family(id) == family
  {
    var m := MergeSnapshots(old_, new_, selected);
    MergedFindingsAccount(w, old_, new_, selected);
    HoldsFamilyOf(AllFindings(m), f, family);
    id := MergedFamilyHasEvidence(w, old_, new_, selected, f.stableId, family);
    HoldsOf(AllFindings(m), f, id);
    HeldIsObserved(m, f.stableId, id);
  }

  lemma MergedFamiliesKnown(w: World, old_: Snapshot, new_: Snapshot, selected: seq<string>, o: Observation)
    requires Ready(w, old_, new_) && o in MergeSnapshots(old_, new_, selected).observations
    ensures o.family == w.family(o.observationId)
  {
    MergedMember(w, old_, new_, selected, o);
    MergedObservation(w, old_, new_, selected, o.observationId);
  }

  lemma MergedFamilyObserved(w: World, old_: Snapshot, new_: Snapshot, selected: seq<string>, f: Finding, family: string)
    requires Ready(w, old_, new_) && MixedHeld(w, old_, new_, selected)
    requires f in AllFindings(MergeSnapshots(old_, new_, selected)) && family in f.families
    ensures var observations := MergeSnapshots(old_, new_, selected).observations;
            exists j :: 0 <= j < |observations| && observations[j].observationId in f.observationIds && observations[j].family == family
  {
    var observations := MergeSnapshots(old_, new_, selected).observations;
    var id := MergedFamilyListed(w, old_, new_, selected, f, family);
    var j :| 0 <= j < |observations| && Ids(observations)[j] == id;
    MergedFamiliesKnown(w, old_, new_, selected, observations[j]);
  }

  lemma ObservedFamilyMerged(w: World, old_: Snapshot, new_: Snapshot, selected: seq<string>, f: Finding, j: nat)
    requires Ready(w, old_, new_) && MixedHeld(w, old_, new_, selected)
    requires f in AllFindings(MergeSnapshots(old_, new_, selected))
    requires var observations := MergeSnapshots(old_, new_, selected).observations;
             j < |observations| && observations[j].observationId in f.observationIds
    ensures MergeSnapshots(old_, new_, selected).observations[j].family in f.families
  {
    var m := MergeSnapshots(old_, new_, selected);
    var id, family := m.observations[j].observationId, m.observations[j].family;
    MergedFindingsAccount(w, old_, new_, selected);
    MergedInventory(w, old_, new_, selected);
    assert m.observations[j] in m.observations;
    MergedObservation(w, old_, new_, selected, id);
    HoldsOf(AllFindings(m), f, id);
    MergedEvidenceHasFamily(w, old_, new_, selected, f.stableId, id);
    HoldsFamilyOf(AllFindings(m), f, family);
  }

  lemma MergedFamilyOf(w: World, old_: Snapshot, new_: Snapshot, selected: seq<string>, f: Finding)
    requires Ready(w, old_, new_) && MixedHeld(w, old_, new_, selected)
    requires f in AllFindings(MergeSnapshots(old_, new_, selected))
    ensures FamiliesOf(f, MergeSnapshots(old_, new_, selected).observations)
  {
    var observations := MergeSnapshots(old_, new_, selected).observations;
    forall family ensures family in f.families <==>
      exists j :: 0 <= j < |observations| && observations[j].observationId in f.observationIds && observations[j].family == family
    {
      if family in f.families {
        MergedFamilyObserved(w, old_, new_, selected, f, family);
      }
      if j :| 0 <= j < |observations| && observations[j].observationId in f.observationIds && observations[j].family == family {
        ObservedFamilyMerged(w, old_, new_, selected, f, j);
      }
    }
  }

  lemma MergedFamiliesAccount(w: World, old_: Snapshot, new_: Snapshot, selected: seq<string>)
    requires Ready(w, old_, new_) && MixedHeld(w, old_, new_, selected)
    ensures FamiliesAccount(MergeSnapshots(old_, new_, selected))
  {
    var m := MergeSnapshots(old_, new_, selected);
    forall i | 0 <= i < |AllFindings(m)| ensures FamiliesOf(AllFindings(m)[i], m.observations) {
      assert AllFindings(m)[i] in AllFindings(m);
      MergedFamilyOf(w, old_, new_, selected, AllFindings(m)[i]);
    }
  }

  // ----- the theorem

  /** A merge of two accounted snapshots is accounted for exactly when no unknown, unreplaced
      channel brings observations and no incoming finding drags in evidence of another lane. */
  lemma MergeAccountsExact(w: World, old_: Snapshot, new_: Snapshot, selected: seq<string>)
    requires Ready(w, old_, new_)
    ensures Accounts(MergeSnapshots(old_, new_, selected))
       <==> StrangersEmpty(old_, new_, selected) && MixedHeld(w, old_, new_, selected)
  {
    MergedChannelsExact(w, old_, new_, selected);
    if MixedHeld(w, old_, new_, selected) {
      MergedFindingsAccount(w, old_, new_, selected);
      MergedFamiliesAccount(w, old_, new_, selected);
    }
    if Accounts(MergeSnapshots(old_, new_, selected)) {
      forall sid, id | IncomingHolds(AllFindings(new_), LostFamilies(old_, new_, selected), sid, id) && !Owned(w, new_, selected, id)
        ensures Holds(AllFindings(old_), sid, id)
      {
        MixedMustBeHeld(w, old_, new_, selected, sid, id);
      }
    }
  }
}
