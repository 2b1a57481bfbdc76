/** When a merge keeps the accounting invariant: exactly, for one merge, and over every
    sequence of merges; siblings keep their evidence and a repeated merge changes nothing. */
module MergeTheorems {
  import opened Sequences
  import opened Ordering
  import opened Text
  import opened Canonical
  import opened CanonicalTheorems
  import opened Accounting
  import opened Hosted
  import opened Merge
  import opened MergeFindings

  /** What identities say about the evidence behind them: an observation id hashes its scanner
      family, the catalog gives every family one channel, and a stable id hashes its lane. */
  datatype World = World(family: string -> string, owner: string -> string, advisory: string -> bool)

  ghost predicate Respects(w: World, s: Snapshot) {
    && (forall o :: o in s.observations ==> o.family == w.family(o.observationId) && o.family != "")
    && (forall row :: row in s.channels ==> RowRespects(w, row))
    && (forall f :: f in s.canonical ==> !w.advisory(f.stableId))
    && (forall f :: f in s.advisories ==> w.advisory(f.stableId))
  }

  /** A channel owns its name, its tool and every family it lists. */
  ghost predicate RowRespects(w: World, row: ChannelRow) {
    && w.owner(row.channel) == row.channel && w.owner(row.name) == row.channel
    && (forall id :: id in row.observationIds ==> w.owner(w.family(id)) == row.channel)
  }

  lemma AccountsKeyed(s: Snapshot)
    requires Accounts(s)
    ensures Keyed(s)
  {
    assert StableIds(AllFindings(s)) == StableIds(s.canonical) + StableIds(s.advisories);
    NoDupParts(StableIds(s.canonical), StableIds(s.advisories));
  }

  // ----- names for the parts of one merge

  ghost predicate Ready(w: World, old_: Snapshot, new_: Snapshot) {
    Accounts(old_) && Accounts(new_) && Respects(w, old_) && Respects(w, new_) && Keyed(old_) && Keyed(new_)
  }

  ghost function Lanes(new_: Snapshot, selected: seq<string>): set<string>
    requires Keyed(new_)
  {
    Replaced(RowsByName(new_.channels), selected)
  }

  ghost function LostFamilies(old_: Snapshot, new_: Snapshot, selected: seq<string>): set<string>
    requires Keyed(old_) && Keyed(new_)
  {
    ReplacedFamilies(old_, new_, Lanes(new_, selected))
  }

  ghost function MergedObservations(old_: Snapshot, new_: Snapshot, selected: seq<string>): map<string, Observation>
    requires Keyed(old_) && Keyed(new_)
  {
    MergedById(old_, new_, LostFamilies(old_, new_, selected))
  }

  /** The observation belongs to a replaced lane. */
  ghost predicate Owned(w: World, new_: Snapshot, selected: seq<string>, id: string)
    requires Keyed(new_)
  {
    w.owner(w.family(id)) in Lanes(new_, selected)
  }

  // ----- families and owners

  lemma OwnerLists(w: World, s: Snapshot, o: Observation) returns (row: ChannelRow)
    requires Accounts(s) && Respects(w, s) && o in s.observations
    ensures row in s.channels && o.observationId in row.observationIds && row.channel == w.owner(o.family)
  {
    FlattenMembers(ChannelIds(s.channels));
    IdMeans(s.observations, o.observationId);
    var i :| 0 <= i < |s.channels| && o.observationId in ChannelIds(s.channels)[i];
    row := s.channels[i];
    assert RowRespects(w, row);
  }

  /** The channels of these rows own what they list. */
  ghost predicate RowsOwn(w: World, rows: map<string, ChannelRow>) {
    forall c :: c in rows ==> RowRespects(w, rows[c]) && rows[c].channel == c
  }

  lemma NameOwned(w: World, rows: map<string, ChannelRow>, c: string)
    requires RowsOwn(w, rows) && w.owner(c) == c
    ensures w.owner(if c in rows then rows[c].name else c) == c
  {
  }

  lemma ListedOwned(w: World, rows: map<string, ChannelRow>, lanes: set<string>, id: string)
    requires RowsOwn(w, rows) && ListedBy(rows, lanes, id)
    ensures w.owner(w.family(id)) in lanes
  {
    var c :| c in lanes && c in rows && id in rows[c].observationIds;
    assert RowRespects(w, rows[c]);
  }

  lemma FamilyOwned(w: World, observations: seq<Observation>, rows: map<string, ChannelRow>, lanes: set<string>, family: string)
    requires RowsOwn(w, rows) && forall o :: o in observations ==> o.family == w.family(o.observationId)
    requires forall c :: c in lanes ==> w.owner(c) == c
    requires family in LaneFamilies(observations, rows, lanes)
    ensures w.owner(family) in lanes
  {
    if o :| o in observations && o.family == family && ListedBy(rows, lanes, o.observationId) {
      ListedOwned(w, rows, lanes, o.observationId);
    } else {
      var c :| c in lanes && family == if c in rows then rows[c].name else c;
      NameOwned(w, rows, c);
    }
  }

  lemma LaneFamilyOwned(w: World, s: Snapshot, lanes: set<string>, family: string)
    requires Respects(w, s) && Keyed(s)
    requires forall c :: c in lanes ==> w.owner(c) == c
    requires family in LaneFamilies(s.observations, RowsByName(s.channels), lanes)
    ensures w.owner(family) in lanes
  {
    FamilyOwned(w, s.observations, RowsByName(s.channels), lanes, family);
  }

  lemma OwnedLaneFamily(w: World, s: Snapshot, lanes: set<string>, o: Observation)
    requires Accounts(s) && Respects(w, s) && Keyed(s)
    requires o in s.observations && w.owner(o.family) in lanes
    ensures o.family in LaneFamilies(s.observations, RowsByName(s.channels), lanes)
  {
    var row := OwnerLists(w, s, o);
    assert row.channel in RowsByName(s.channels);
    assert ListedBy(RowsByName(s.channels), lanes, o.observationId);
  }

  lemma LanesOwnThemselves(w: World, old_: Snapshot, new_: Snapshot, selected: seq<string>)
    requires Ready(w, old_, new_)
    ensures forall c :: c in Lanes(new_, selected) ==> w.owner(c) == c
  {
    forall c | c in Lanes(new_, selected) ensures w.owner(c) == c {
      assert RowRespects(w, RowsByName(new_.channels)[c]);
    }
  }

  lemma LostFamilyOwned(w: World, old_: Snapshot, new_: Snapshot, selected: seq<string>, family: string)
    requires Ready(w, old_, new_) && family in LostFamilies(old_, new_, selected)
    ensures w.owner(family) in Lanes(new_, selected)
  {
    LanesOwnThemselves(w, old_, new_, selected);
    if family in LaneFamilies(old_.observations, RowsByName(old_.channels), Lanes(new_, selected)) {
      LaneFamilyOwned(w, old_, Lanes(new_, selected), family);
    } else {
      LaneFamilyOwned(w, new_, Lanes(new_, selected), family);
    }
  }

  /** A family is dropped and replaced exactly when its channel is. */
  lemma LostFamilyExact(w: World, old_: Snapshot, new_: Snapshot, selected: seq<string>, o: Observation)
    requires Ready(w, old_, new_) && (o in old_.observations || o in new_.observations)
    ensures o.family in LostFamilies(old_, new_, selected) <==> Owned(w, new_, selected, o.observationId)
  {
    if o.family in LostFamilies(old_, new_, selected) {
      LostFamilyOwned(w, old_, new_, selected, o.family);
    }
    if Owned(w, new_, selected, o.observationId) {
      if o in old_.observations {
        OwnedLaneFamily(w, old_, Lanes(new_, selected), o);
      } else {
        OwnedLaneFamily(w, new_, Lanes(new_, selected), o);
      }
    }
  }

  // ----- the merged observations

  /** Which observations the merge keeps. */
  ghost predicate Kept(w: World, old_: Snapshot, new_: Snapshot, selected: seq<string>, id: string)
    requires Keyed(new_)
  {
    if Owned(w, new_, selected, id) then id in Ids(new_.observations) else id in Ids(old_.observations)
  }

  lemma Lookup(w: World, old_: Snapshot, new_: Snapshot, selected: seq<string>, s: Snapshot, id: string)
    requires Ready(w, old_, new_) && (s == old_ || s == new_)
    requires id in ById(s.observations)
    ensures var o := ById(s.observations)[id];
            && (o.family in LostFamilies(old_, new_, selected) <==> Owned(w, new_, selected, id))
            && o.observationId == id && o.family == w.family(id) && o.family != ""
  {
    LostFamilyExact(w, old_, new_, selected, ById(s.observations)[id]);
  }

  /** The merged dictionary, as a map union. */
  lemma MergedLookup(old_: Snapshot, new_: Snapshot, families: set<string>, id: string)
    requires Keyed(old_) && Keyed(new_)
    ensures var byId, a, b := MergedById(old_, new_, families), ById(old_.observations), ById(new_.observations);
            && (id in byId <==> (id in a && a[id].family !in families) || (id in b && b[id].family in families))
            && (id in byId ==> byId[id] == if id in b && b[id].family in families then b[id] else a[id])
  {
  }

  lemma MergedObservation(w: World, old_: Snapshot, new_: Snapshot, selected: seq<string>, id: string)
    requires Ready(w, old_, new_)
    ensures var byId := MergedObservations(old_, new_, selected);
            && (id in byId <==> Kept(w, old_, new_, selected, id))
            && (id in byId ==> byId[id].observationId == id && byId[id].family == w.family(id) && byId[id].family != "")
            && (id in byId ==> byId[id] == if Owned(w, new_, selected, id) then ById(new_.observations)[id] else ById(old_.observations)[id])
  {
    MergedLookup(old_, new_, LostFamilies(old_, new_, selected), id);
    if id in ById(old_.observations) {
      Lookup(w, old_, new_, selected, old_, id);
    }
    if id in ById(new_.observations) {
      Lookup(w, old_, new_, selected, new_, id);
    }
  }

  lemma KeptMeansStays(w: World, old_: Snapshot, new_: Snapshot, selected: seq<string>, id: string)
    requires Ready(w, old_, new_) && id in Ids(old_.observations)
    ensures Stays(MergedObservations(old_, new_, selected), LostFamilies(old_, new_, selected), id)
       <==> !Owned(w, new_, selected, id)
  {
    MergedObservation(w, old_, new_, selected, id);
    var byId := MergedObservations(old_, new_, selected);
    if id in byId {
      assert byId[id] in old_.observations || byId[id] in new_.observations;
      LostFamilyExact(w, old_, new_, selected, byId[id]);
    }
  }

  /** The merged observations, one by one. */
  lemma MergedAt(old_: Snapshot, new_: Snapshot, selected: seq<string>, i: nat)
    requires Keyed(old_) && Keyed(new_)
    requires i < |MergedKeys(old_, new_, LostFamilies(old_, new_, selected))|
    ensures var keys := MergedKeys(old_, new_, LostFamilies(old_, new_, selected));
            var byId, m := MergedObservations(old_, new_, selected), MergeSnapshots(old_, new_, selected);
            && |SortStrings(keys)| == |keys| == |m.observations| && SortStrings(keys)[i] in byId
            && m.observations[i] == byId[SortStrings(keys)[i]] && m.observations[i].observationId == SortStrings(keys)[i]
  {
    var keys := MergedKeys(old_, new_, LostFamilies(old_, new_, selected));
    MergedKeysFacts(old_, new_, LostFamilies(old_, new_, selected));
    PermutationMembers(keys, SortStrings(keys));
    assert SortStrings(keys)[i] in keys;
    MergedLookup(old_, new_, LostFamilies(old_, new_, selected), SortStrings(keys)[i]);
  }

  lemma MergedIds(old_: Snapshot, new_: Snapshot, selected: seq<string>)
    requires Keyed(old_) && Keyed(new_)
    ensures Ids(MergeSnapshots(old_, new_, selected).observations)
         == SortStrings(MergedKeys(old_, new_, LostFamilies(old_, new_, selected)))
  {
    var keys, m := MergedKeys(old_, new_, LostFamilies(old_, new_, selected)), MergeSnapshots(old_, new_, selected);
    PermutationMembers(keys, SortStrings(keys));
    forall i | 0 <= i < |keys| ensures |m.observations| == |keys| && m.observations[i].observationId == SortStrings(keys)[i] {
      MergedAt(old_, new_, selected, i);
    }
  }

  lemma MergedIdKept(w: World, old_: Snapshot, new_: Snapshot, selected: seq<string>, id: string)
    requires Ready(w, old_, new_)
    ensures id in Ids(MergeSnapshots(old_, new_, selected).observations) <==> Kept(w, old_, new_, selected, id)
  {
    var families := LostFamilies(old_, new_, selected);
    var keys := MergedKeys(old_, new_, families);
    MergedIds(old_, new_, selected);
    MergedKeysFacts(old_, new_, families);
    PermutationMembers(keys, SortStrings(keys));
    MergedObservation(w, old_, new_, selected, id);
  }

  lemma MergedMember(w: World, old_: Snapshot, new_: Snapshot, selected: seq<string>, o: Observation)
    requires Ready(w, old_, new_) && o in MergeSnapshots(old_, new_, selected).observations
    ensures o.observationId in MergedObservations(old_, new_, selected) && o == MergedObservations(old_, new_, selected)[o.observationId]
  {
    var observations := MergeSnapshots(old_, new_, selected).observations;
    MergedIds(old_, new_, selected);
    PermutationMembers(MergedKeys(old_, new_, LostFamilies(old_, new_, selected)),
                       SortStrings(MergedKeys(old_, new_, LostFamilies(old_, new_, selected))));
    var i :| 0 <= i < |observations| && observations[i] == o;
    MergedAt(old_, new_, selected, i);
  }

  lemma MergedIdsDistinct(old_: Snapshot, new_: Snapshot, selected: seq<string>)
    requires Keyed(old_) && Keyed(new_)
    ensures NoDup(Ids(MergeSnapshots(old_, new_, selected).observations))
  {
    var families := LostFamilies(old_, new_, selected);
    MergedIds(old_, new_, selected);
    MergedKeysFacts(old_, new_, families);
    PermutationNoDup(MergedKeys(old_, new_, families), SortStrings(MergedKeys(old_, new_, families)));
  }

  lemma MergedInventory(w: World, old_: Snapshot, new_: Snapshot, selected: seq<string>)
    requires Ready(w, old_, new_)
    ensures var m := MergeSnapshots(old_, new_, selected);
            && NoDup(Ids(m.observations))
            && (forall id :: id in Ids(m.observations) <==> Kept(w, old_, new_, selected, id))
            && (forall o :: o in m.observations ==>
                  o.observationId in MergedObservations(old_, new_, selected)
                  && o == MergedObservations(old_, new_, selected)[o.observationId])
  {
    var byId, m := MergedObservations(old_, new_, selected), MergeSnapshots(old_, new_, selected);
    MergedIdsDistinct(old_, new_, selected);
    forall id ensures id in Ids(m.observations) <==> Kept(w, old_, new_, selected, id) {
      MergedIdKept(w, old_, new_, selected, id);
    }
    forall o | o in m.observations ensures o.observationId in byId && o == byId[o.observationId] {
      MergedMember(w, old_, new_, selected, o);
    }
  }

  // ----- the two conditions a caller can check beforehand

  /** A channel that only the incoming snapshot knows, and that is not replaced, lists nothing. */
  ghost predicate StrangersEmpty(old_: Snapshot, new_: Snapshot, selected: seq<string>)
    requires Keyed(old_) && Keyed(new_)
  {
    forall row :: row in new_.channels && row.channel !in ChannelNames(old_.channels) && row.channel !in Lanes(new_, selected)
      ==> row.observationIds == []
  }

  /** An incoming finding of a replaced family lists no observation of another lane, unless
      the old finding of the same id lists that observation already. */
  ghost predicate MixedHeld(w: World, old_: Snapshot, new_: Snapshot, selected: seq<string>)
    requires Keyed(old_) && Keyed(new_)
  {
    forall sid, id ::
      IncomingHolds(AllFindings(new_), LostFamilies(old_, new_, selected), sid, id) && !Owned(w, new_, selected, id)
      ==> Holds(AllFindings(old_), sid, id)
  }
}
