/** `merge_channel_documents`: successful scanner lanes replace their part of an existing
    report of the same revision, and every other lane keeps its evidence. */
module Merge {
  import opened Sequences
  import opened Ordering
  import opened Text
  import opened StatusContract
  import opened Canonical
  import opened CanonicalTheorems
  import opened Accounting
  import opened Hosted

  /** What the merge needs of a validated snapshot: no repeated identity. */
  ghost predicate Keyed(s: Snapshot) {
    NoDup(ChannelNames(s.channels)) && NoDup(Ids(s.observations))
    && NoDup(StableIds(s.canonical)) && NoDup(StableIds(s.advisories))
  }

  // ----- which lanes are replaced

  function RowsByName(channels: seq<ChannelRow>): (r: map<string, ChannelRow>)
    requires NoDup(ChannelNames(channels))
    ensures forall c :: c in r <==> c in ChannelNames(channels)
    ensures forall c :: c in r ==> r[c] in channels && r[c].channel == c
    ensures forall row :: row in channels ==> row.channel in r && r[row.channel] == row
  {
    NamesFacts(channels);
    map row | row in channels :: row.channel := row
  }

  lemma NamesFacts(channels: seq<ChannelRow>)
    requires NoDup(ChannelNames(channels))
    ensures forall a, b :: a in channels && b in channels && a.channel == b.channel ==> a == b
    ensures forall c :: c in ChannelNames(channels) <==> exists row :: row in channels && row.channel == c
  {
    forall a, b | a in channels && b in channels && a.channel == b.channel ensures a == b {
      var i :| 0 <= i < |channels| && channels[i] == a;
      var j :| 0 <= j < |channels| && channels[j] == b;
      assert ChannelNames(channels)[i] == ChannelNames(channels)[j];
    }
    forall c ensures c in ChannelNames(channels) <==> exists row :: row in channels && row.channel == c {
      if c in ChannelNames(channels) {
        var i :| 0 <= i < |channels| && ChannelNames(channels)[i] == c;
        assert channels[i] in channels;
      }
      if row :| row in channels && row.channel == c {
        var i :| 0 <= i < |channels| && channels[i] == row;
        assert ChannelNames(channels)[i] == c;
      }
    }
  }

  /** The selected channels whose incoming row is complete. */
  function Replaced(rows: map<string, ChannelRow>, selected: seq<string>): set<string> {
    set c | c in selected && c in rows && IsComplete(rows[c].status)
  }

  predicate ListedBy(rows: map<string, ChannelRow>, identities: set<string>, id: string) {
    exists c :: c in identities && c in rows && id in rows[c].observationIds
  }

  /** The tool names and observed families of some channels of a snapshot. */
  function LaneFamilies(observations: seq<Observation>, rows: map<string, ChannelRow>, identities: set<string>): set<string> {
    (set c | c in identities :: if c in rows then rows[c].name else c)
    + (set o | o in observations && o.family != "" && ListedBy(rows, identities, o.observationId) :: o.family)
  }

  function ReplacedFamilies(old_: Snapshot, new_: Snapshot, replace: set<string>): set<string>
    requires Keyed(old_) && Keyed(new_)
  {
    LaneFamilies(old_.observations, RowsByName(old_.channels), replace)
    + LaneFamilies(new_.observations, RowsByName(new_.channels), replace)
  }

  // ----- observations

  function OutsideFamilies(families: set<string>): Observation -> bool {
    (o: Observation) => o.family !in families
  }

  function InsideFamilies(families: set<string>): Observation -> bool {
    (o: Observation) => o.family in families
  }

  /** The merged observations by id; an incoming one wins over a retained one. */
  function MergedById(old_: Snapshot, new_: Snapshot, families: set<string>): (r: map<string, Observation>)
    requires Keyed(old_) && Keyed(new_)
  {
    (map id | id in ById(old_.observations) && ById(old_.observations)[id].family !in families :: ById(old_.observations)[id])
    + (map id | id in ById(new_.observations) && ById(new_.observations)[id].family in families :: ById(new_.observations)[id])
  }

  /** `sorted(observations_by_id.values(), key=observation_id)`. */
  function SortedObservations(ids: seq<string>, byId: map<string, Observation>): (r: seq<Observation>)
    requires forall id :: id in ids ==> id in byId
    ensures |r| == |ids|
  {
    Origins(SortStrings(ids), byId)
  }

  /** The keys of the merged dictionary, in insertion order. */
  function MergedKeys(old_: Snapshot, new_: Snapshot, families: set<string>): seq<string> {
    Dedupe(Ids(Filter(OutsideFamilies(families), old_.observations)) + Ids(Filter(InsideFamilies(families), new_.observations)))
  }

  // ----- findings

  /** An old finding without the evidence of the replaced families. */
  function Trim(f: Finding, byId: map<string, Observation>, families: set<string>): Finding {
    f.(observationIds := Filter(id => id in byId && byId[id].family !in families, f.observationIds),
       families := Filter(family => family !in families, f.families))
  }

  predicate Survives(f: Finding) {
    f.observationIds != [] || f.families != []
  }

  predicate Touches(f: Finding, families: set<string>) {
    exists i :: 0 <= i < |f.families| && f.families[i] in families
  }

  /** A retained finding that the incoming evidence supports as well. */
  function Absorb(prior: Finding, incoming: Finding): Finding {
    prior.(observationIds := Dedupe(prior.observationIds + incoming.observationIds),
           families := Dedupe(prior.families + incoming.families))
  }

  function TrimAll(findings: seq<Finding>, byId: map<string, Observation>, families: set<string>): (r: seq<Finding>) {
    if findings == [] then []
    else
      var last := Trim(findings[|findings| - 1], byId, families);
      TrimAll(findings[..|findings| - 1], byId, families) + if Survives(last) then [last] else []
  }

  function Touching(families: set<string>): Finding -> bool {
    (f: Finding) => Touches(f, families)
  }

  /** One incoming finding taken into the findings merged so far. */
  function TakeIn(combined: seq<Finding>, f: Finding): seq<Finding> {
    if exists i :: 0 <= i < |combined| && combined[i].stableId == f.stableId then
      seq(|combined|, i requires 0 <= i < |combined| =>
        if combined[i].stableId == f.stableId then Absorb(combined[i], f) else combined[i])
    else combined + [f]
  }

  function TakeInAll(combined: seq<Finding>, incoming: seq<Finding>): seq<Finding> {
    if incoming == [] then combined
    else TakeIn(TakeInAll(combined, incoming[..|incoming| - 1]), incoming[|incoming| - 1])
  }

  function MergeLane(old_: seq<Finding>, new_: seq<Finding>, byId: map<string, Observation>, families: set<string>): seq<Finding> {
    TakeInAll(TrimAll(old_, byId, families), Filter(Touching(families), new_))
  }

  // ----- channels

  /** A merged channel row: the incoming one if its lane is replaced, otherwise the retained
      one, with a note of a selected attempt that did not succeed. */
  function MergeChannel(c: string, oldRows: map<string, ChannelRow>, newRows: map<string, ChannelRow>,
                        selected: seq<string>, replace: set<string>): ChannelRow
    requires c in oldRows || c in newRows
    requires c in replace ==> c in newRows
  {
    if c in replace then newRows[c]
    else
      var kept := if c in oldRows then oldRows[c] else newRows[c];
      if c in selected && c in newRows then kept.(lastAttempt := Some((newRows[c].status, newRows[c].reason))) else kept
  }

  function MergeChannels(names: seq<string>, oldRows: map<string, ChannelRow>, newRows: map<string, ChannelRow>,
                         selected: seq<string>, replace: set<string>): (r: seq<ChannelRow>)
    requires forall c :: c in names ==> c in oldRows || c in newRows
    requires forall c :: c in replace ==> c in newRows
    ensures |r| == |names|
    ensures forall i :: 0 <= i < |names| ==> r[i] == MergeChannel(names[i], oldRows, newRows, selected, replace)
  {
    seq(|names|, i requires 0 <= i < |names| => MergeChannel(names[i], oldRows, newRows, selected, replace))
  }

  function ChannelUnion(old_: Snapshot, new_: Snapshot): seq<string> {
    SortedSet(ChannelNames(old_.channels) + ChannelNames(new_.channels))
  }

  function MergeGate(old_: Gate, replace: set<string>, names: seq<string>, rows: map<string, ChannelRow>): Gate {
    var ids := Dedupe(old_.channelIds + Filter(c => c in replace, names));
    Gate(ids, ids != [] && forall i :: 0 <= i < |ids| ==> ids[i] in rows && rows[ids[i]].status == "COMPLETED")
  }

  // ----- the merged snapshot

  lemma MergedKeysFacts(old_: Snapshot, new_: Snapshot, families: set<string>)
    requires Keyed(old_) && Keyed(new_)
    ensures NoDup(MergedKeys(old_, new_, families))
    ensures forall id :: id in MergedKeys(old_, new_, families) <==> id in MergedById(old_, new_, families)
  {
    var a := Filter(OutsideFamilies(families), old_.observations);
    var b := Filter(InsideFamilies(families), new_.observations);
    DedupeMembers(Ids(a) + Ids(b));
    FilterMembers(OutsideFamilies(families), old_.observations);
    FilterMembers(InsideFamilies(families), new_.observations);
    forall id ensures id in MergedKeys(old_, new_, families) <==> id in MergedById(old_, new_, families) {
      IdMeans(a, id);
      IdMeans(b, id);
    }
  }

  lemma ChannelUnionFacts(old_: Snapshot, new_: Snapshot)
    requires Keyed(old_) && Keyed(new_)
    ensures NoDup(ChannelUnion(old_, new_))
    ensures forall c :: c in ChannelUnion(old_, new_) <==> c in RowsByName(old_.channels) || c in RowsByName(new_.channels)
  {
    var a, b := ChannelNames(old_.channels), ChannelNames(new_.channels);
    assert forall c :: c in a + b <==> c in a || c in b;
  }

  function SplicedObservations(old_: Snapshot, new_: Snapshot, families: set<string>): seq<Observation>
    requires Keyed(old_) && Keyed(new_)
  {
    MergedKeysFacts(old_, new_, families);
    SortedObservations(MergedKeys(old_, new_, families), MergedById(old_, new_, families))
  }

  function SplicedChannels(old_: Snapshot, new_: Snapshot, selected: seq<string>): (r: seq<ChannelRow>)
    requires Keyed(old_) && Keyed(new_)
    ensures ChannelNames(r) == ChannelUnion(old_, new_) && NoDup(ChannelNames(r))
  {
    var oldRows, newRows := RowsByName(old_.channels), RowsByName(new_.channels);
    ChannelUnionFacts(old_, new_);
    var r := MergeChannels(ChannelUnion(old_, new_), oldRows, newRows, selected, Replaced(newRows, selected));
    assert ChannelNames(r) == ChannelUnion(old_, new_);
    r
  }

  /** The merged parts together, counted, under the gate that the old one becomes. */
  function Assemble(observations: seq<Observation>, canonical: seq<Finding>, advisories: seq<Finding>, channels: seq<ChannelRow>,
                    gate: Gate, replace: set<string>): Snapshot
    requires NoDup(ChannelNames(channels))
  {
    Snapshot(canonical, advisories, observations, channels, |channels|, |canonical| + |advisories|, |observations|,
             MergeGate(gate, replace, ChannelNames(channels), RowsByName(channels)))
  }

  function MergeSnapshots(old_: Snapshot, new_: Snapshot, selected: seq<string>): Snapshot
    requires Keyed(old_) && Keyed(new_)
  {
    var replace := Replaced(RowsByName(new_.channels), selected);
    var families := ReplacedFamilies(old_, new_, replace);
    var byId := MergedById(old_, new_, families);
    Assemble(SplicedObservations(old_, new_, families), MergeLane(old_.canonical, new_.canonical, byId, families),
             MergeLane(old_.advisories, new_.advisories, byId, families), SplicedChannels(old_, new_, selected), old_.gate, replace)
  }
}
