/** `build_analysis_channels` and `build_analysis_snapshot`: assigning observations to the
    catalog's channels by scanner family. */
module ChannelInventory {
  import opened Sequences
  import opened Text
  import opened Grouping
  import opened Canonical
  import opened CanonicalTheorems
  import opened Accounting

  datatype Configured = Configured(channel: string, tool: string, evidenceFamilies: seq<string>)

  function FamilyOf(o: Observation): string { o.family }

  /** The families of a channel: its tool and the listed aliases, each once. */
  function ChannelFamilies(c: Configured): seq<string> {
    Dedupe([c.tool] + c.evidenceFamilies)
  }

  function FamilyBucket(observations: seq<Observation>): string -> seq<Observation> {
    family => Bucket(FamilyOf, observations, family)
  }

  /** A channel's observations, family by family. */
  function ChannelObservations(c: Configured, observations: seq<Observation>): seq<Observation> {
    Flatten(Map(FamilyBucket(observations), ChannelFamilies(c)))
  }

  /** The status and reason that gate rows and native status files give a channel. */
  type Verdict = string -> (string, string)

  function MakeChannel(c: Configured, observations: seq<Observation>, verdict: Verdict): ChannelRow {
    var own := ChannelObservations(c, observations);
    ChannelRow(c.channel, c.tool, verdict(c.channel).0, verdict(c.channel).1, Ids(own), |own|, None)
  }

  function MakeChannels(catalog: seq<Configured>, observations: seq<Observation>, verdict: Verdict): (r: seq<ChannelRow>)
    ensures |r| == |catalog|
    ensures forall i :: 0 <= i < |catalog| ==> r[i] == MakeChannel(catalog[i], observations, verdict)
  {
    seq(|catalog|, i requires 0 <= i < |catalog| => MakeChannel(catalog[i], observations, verdict))
  }

  function CatalogNames(catalog: seq<Configured>): (r: seq<string>)
    ensures |r| == |catalog|
    ensures forall i :: 0 <= i < |catalog| ==> r[i] == catalog[i].channel
  {
    seq(|catalog|, i requires 0 <= i < |catalog| => catalog[i].channel)
  }

  /** The observations of one channel, collected from the per-family dictionary. */
  method CollectChannel(c: Configured, ghost observations: seq<Observation>, ghost families: seq<string>,
                        byFamily: map<string, seq<Observation>>) returns (own: seq<Observation>)
    requires Grouped(FamilyOf, observations, families, byFamily)
    ensures own == ChannelObservations(c, observations)
  {
    var names := ChannelFamilies(c);
    own := [];
    for i := 0 to |names|
      invariant own == Flatten(Map(FamilyBucket(observations), names)[..i])
    {
      TakeNext(Map(FamilyBucket(observations), names), i);
      FlattenAppend(Map(FamilyBucket(observations), names)[..i], Bucket(FamilyOf, observations, names[i]));
      AbsentFamily(observations, families, byFamily, names[i]);
      if names[i] in byFamily {
        own := own + byFamily[names[i]];
      }
    }
    TakeAll(Map(FamilyBucket(observations), names));
  }

  lemma AbsentFamily(observations: seq<Observation>, families: seq<string>, byFamily: map<string, seq<Observation>>, family: string)
    requires Grouped(FamilyOf, observations, families, byFamily)
    ensures family !in byFamily ==> Bucket(FamilyOf, observations, family) == []
  {
    KeysMembers(FamilyOf, observations);
    BucketMembers(FamilyOf, observations, family);
  }

  method BuildAnalysisChannels(catalog: seq<Configured>, observations: seq<Observation>, verdict: Verdict)
      returns (r: Result<seq<ChannelRow>>)
    ensures r.Ok? <==> catalog != [] && "" !in CatalogNames(catalog) && NoDup(CatalogNames(catalog))
    ensures r.Ok? ==> r.value == MakeChannels(catalog, observations, verdict)
  {
    var names := CatalogNames(catalog);
    if names == [] || "" in names || !Distinct(names) {
      return Err("analysis catalog requires unique nonempty channel identities");
    }
    var families, byFamily := GroupBy(FamilyOf, observations);
    var rows: seq<ChannelRow> := [];
    for i := 0 to |catalog|
      invariant rows == MakeChannels(catalog, observations, verdict)[..i]
    {
      var c := catalog[i];
      var own := CollectChannel(c, observations, families, byFamily);
      TakeNext(MakeChannels(catalog, observations, verdict), i);
      rows := rows + [ChannelRow(c.channel, c.tool, verdict(c.channel).0, verdict(c.channel).1, Ids(own), |own|, None)];
    }
    TakeAll(MakeChannels(catalog, observations, verdict));
    r := Ok(rows);
  }

  // ----- every observation in exactly one channel

  lemma ChannelObservationsMembers(c: Configured, observations: seq<Observation>)
    ensures forall o :: o in ChannelObservations(c, observations) <==> o in observations && o.family in ChannelFamilies(c)
  {
    var names := ChannelFamilies(c);
    var buckets := Map(FamilyBucket(observations), names);
    FlattenMembers(buckets);
    forall o ensures o in ChannelObservations(c, observations) <==> o in observations && o.family in names {
      BucketMembers(FamilyOf, observations, o.family);
      if o in observations && o.family in names {
        var i :| 0 <= i < |names| && names[i] == o.family;
        assert o in buckets[i];
      }
      if o in Flatten(buckets) {
        var i :| 0 <= i < |buckets| && o in buckets[i];
        BucketMembers(FamilyOf, observations, names[i]);
      }
    }
  }

  lemma ChannelObservationsNoDup(c: Configured, observations: seq<Observation>)
    requires NoDup(observations)
    ensures NoDup(ChannelObservations(c, observations))
  {
    var names := ChannelFamilies(c);
    DedupeMembers([c.tool] + c.evidenceFamilies);
    var buckets := Map(FamilyBucket(observations), names);
    forall i | 0 <= i < |buckets| ensures NoDup(buckets[i]) {
      FilterNoDup(HasKey(FamilyOf, names[i]), observations);
    }
    forall i, j, o | 0 <= i < j < |buckets| && o in buckets[i] ensures o !in buckets[j] {
      BucketMembers(FamilyOf, observations, names[i]);
      BucketMembers(FamilyOf, observations, names[j]);
    }
    FlattenNoDup(buckets);
  }

  lemma IdsNoDup(own: seq<Observation>, observations: seq<Observation>)
    requires NoDup(own) && (forall o :: o in own ==> o in observations) && NoDup(Ids(observations))
    ensures NoDup(Ids(own))
  {
    forall i, j | 0 <= i < j < |own| ensures Ids(own)[i] != Ids(own)[j] {
      assert own[i] in own && own[j] in own;
      var a :| 0 <= a < |observations| && observations[a] == own[i];
      var b :| 0 <= b < |observations| && observations[b] == own[j];
      assert Ids(observations)[a] != Ids(observations)[b];
    }
  }

  lemma SameObservation(observations: seq<Observation>, o: Observation, p: Observation)
    requires NoDup(Ids(observations)) && o in observations && p in observations && o.observationId == p.observationId
    ensures o == p
  {
    var i :| 0 <= i < |observations| && observations[i] == o;
    var j :| 0 <= j < |observations| && observations[j] == p;
    assert Ids(observations)[i] == Ids(observations)[j];
  }

  lemma ObservationsNoDup(observations: seq<Observation>)
    requires NoDup(Ids(observations))
    ensures NoDup(observations)
  {
    forall i, j | 0 <= i < j < |observations| ensures observations[i] != observations[j] {
      assert Ids(observations)[i] != Ids(observations)[j];
    }
  }

  /** An observation's id stands in a channel's row exactly when its family belongs to the channel. */
  lemma RowLists(c: Configured, observations: seq<Observation>, o: Observation)
    requires NoDup(Ids(observations)) && o in observations
    ensures o.observationId in Ids(ChannelObservations(c, observations)) <==> o.family in ChannelFamilies(c)
  {
    var own := ChannelObservations(c, observations);
    ChannelObservationsMembers(c, observations);
    IdMeans(own, o.observationId);
    if o.observationId in Ids(own) {
      var p :| p in own && p.observationId == o.observationId;
      SameObservation(observations, o, p);
    }
  }

  /** Every observed family belongs to exactly one channel of the catalog. */
  ghost predicate FamiliesAssigned(catalog: seq<Configured>, observations: seq<Observation>) {
    && (forall o :: o in observations ==> exists i :: 0 <= i < |catalog| && o.family in ChannelFamilies(catalog[i]))
    && (forall o, i, j :: o in observations && 0 <= i < j < |catalog| && o.family in ChannelFamilies(catalog[i])
          ==> o.family !in ChannelFamilies(catalog[j]))
  }

  lemma RowsNoDup(catalog: seq<Configured>, observations: seq<Observation>, verdict: Verdict, i: nat)
    requires NoDup(Ids(observations)) && i < |catalog|
    ensures NoDup(ChannelIds(MakeChannels(catalog, observations, verdict))[i])
  {
    ObservationsNoDup(observations);
    ChannelObservationsNoDup(catalog[i], observations);
    ChannelObservationsMembers(catalog[i], observations);
    IdsNoDup(ChannelObservations(catalog[i], observations), observations);
  }

  lemma RowIdIsObserved(catalog: seq<Configured>, observations: seq<Observation>, verdict: Verdict, i: nat, id: string)
      returns (o: Observation)
    requires i < |catalog| && id in ChannelIds(MakeChannels(catalog, observations, verdict))[i]
    ensures o in observations && o.observationId == id && o.family in ChannelFamilies(catalog[i])
  {
    var own := ChannelObservations(catalog[i], observations);
    IdMeans(own, id);
    o :| o in own && o.observationId == id;
    ChannelObservationsMembers(catalog[i], observations);
  }

  lemma AssignedNoDup(catalog: seq<Configured>, observations: seq<Observation>, verdict: Verdict)
    requires NoDup(Ids(observations)) && FamiliesAssigned(catalog, observations)
    ensures NoDup(Flatten(ChannelIds(MakeChannels(catalog, observations, verdict))))
  {
    var rows := ChannelIds(MakeChannels(catalog, observations, verdict));
    forall i | 0 <= i < |rows| ensures NoDup(rows[i]) {
      RowsNoDup(catalog, observations, verdict, i);
    }
    forall i, j, id | 0 <= i < j < |rows| && id in rows[i] ensures id !in rows[j] {
      var o := RowIdIsObserved(catalog, observations, verdict, i, id);
      RowLists(catalog[j], observations, o);
    }
    FlattenNoDup(rows);
  }

  lemma AssignedCovers(catalog: seq<Configured>, observations: seq<Observation>, verdict: Verdict, id: string)
    requires NoDup(Ids(observations)) && FamiliesAssigned(catalog, observations)
    ensures id in Flatten(ChannelIds(MakeChannels(catalog, observations, verdict))) <==> id in Ids(observations)
  {
    var rows := ChannelIds(MakeChannels(catalog, observations, verdict));
    FlattenMember(rows, id);
    IdMeans(observations, id);
    if id in Flatten(rows) {
      var i :| 0 <= i < |rows| && id in rows[i];
      var o := RowIdIsObserved(catalog, observations, verdict, i, id);
    }
    if id in Ids(observations) {
      var o :| o in observations && o.observationId == id;
      var i :| 0 <= i < |catalog| && o.family in ChannelFamilies(catalog[i]);
      RowLists(catalog[i], observations, o);
      assert id in rows[i];
    }
  }

  lemma AssignedPartitions(catalog: seq<Configured>, observations: seq<Observation>, verdict: Verdict)
    requires NoDup(Ids(observations)) && FamiliesAssigned(catalog, observations)
    ensures Partitions(ChannelIds(MakeChannels(catalog, observations, verdict)), Ids(observations))
  {
    AssignedNoDup(catalog, observations, verdict);
    forall id ensures id in Flatten(ChannelIds(MakeChannels(catalog, observations, verdict))) <==> id in Ids(observations) {
      AssignedCovers(catalog, observations, verdict, id);
    }
  }

  lemma PartitionMeansAssigned(catalog: seq<Configured>, observations: seq<Observation>, verdict: Verdict)
    requires NoDup(Ids(observations))
    requires Partitions(ChannelIds(MakeChannels(catalog, observations, verdict)), Ids(observations))
    ensures FamiliesAssigned(catalog, observations)
  {
    var rows := ChannelIds(MakeChannels(catalog, observations, verdict));
    FlattenMembers(rows);
    FlattenNoDupRows(rows);
    forall o | o in observations
      ensures exists i :: 0 <= i < |catalog| && o.family in ChannelFamilies(catalog[i])
    {
      IdMeans(observations, o.observationId);
      var i :| 0 <= i < |rows| && o.observationId in rows[i];
      RowLists(catalog[i], observations, o);
    }
    forall o, i, j | o in observations && 0 <= i < j < |catalog| && o.family in ChannelFamilies(catalog[i])
      ensures o.family !in ChannelFamilies(catalog[j])
    {
      RowLists(catalog[i], observations, o);
      RowLists(catalog[j], observations, o);
      assert o.observationId in rows[i];
    }
  }

  /** The channel inventory accounts for every observation once, exactly when each
      observed scanner family belongs to exactly one catalog channel. */
  lemma ChannelsPartitionExact(catalog: seq<Configured>, observations: seq<Observation>, verdict: Verdict)
    requires NoDup(Ids(observations))
    ensures Partitions(ChannelIds(MakeChannels(catalog, observations, verdict)), Ids(observations))
       <==> FamiliesAssigned(catalog, observations)
  {
    if FamiliesAssigned(catalog, observations) {
      AssignedPartitions(catalog, observations, verdict);
    }
    if Partitions(ChannelIds(MakeChannels(catalog, observations, verdict)), Ids(observations)) {
      PartitionMeansAssigned(catalog, observations, verdict);
    }
  }
}
