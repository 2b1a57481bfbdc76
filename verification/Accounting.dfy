/** Snapshots and the observation-accounting checks of `validate_snapshot`. */
module Accounting {
  import opened Sequences
  import opened Text
  import opened Identity
  import opened Canonical
  import opened CanonicalTheorems

  datatype ChannelRow = ChannelRow(channel: string, name: string, status: string, reason: string,
                                   observationIds: seq<string>, observationCount: nat,
                                   lastAttempt: Option<(string, string)>)

  datatype Gate = Gate(channelIds: seq<string>, satisfied: bool)

  datatype Snapshot = Snapshot(canonical: seq<Finding>, advisories: seq<Finding>, observations: seq<Observation>,
                               channels: seq<ChannelRow>, channelCount: nat, findingCount: nat,
                               observationCount: nat, gate: Gate)

  function ChannelNames(channels: seq<ChannelRow>): (r: seq<string>)
    ensures |r| == |channels|
    ensures forall i :: 0 <= i < |channels| ==> r[i] == channels[i].channel
  {
    seq(|channels|, i requires 0 <= i < |channels| => channels[i].channel)
  }

  function ChannelIds(channels: seq<ChannelRow>): (r: seq<seq<string>>)
    ensures |r| == |channels|
    ensures forall i :: 0 <= i < |channels| ==> r[i] == channels[i].observationIds
  {
    seq(|channels|, i requires 0 <= i < |channels| => channels[i].observationIds)
  }

  function AllFindings(s: Snapshot): seq<Finding> {
    s.canonical + s.advisories
  }

  /** The list of lists holds every element of `all` exactly once. */
  ghost predicate Partitions(parts: seq<seq<string>>, all: seq<string>) {
    NoDup(Flatten(parts)) && forall x :: x in Flatten(parts) <==> x in all
  }

  /** What `validate_snapshot` promises about a snapshot's inventory. */
  ghost predicate ChannelsAccount(s: Snapshot) {
    && s.channels != [] && s.channelCount == |s.channels|
    && "" !in ChannelNames(s.channels) && NoDup(ChannelNames(s.channels))
    && (forall i :: 0 <= i < |s.channels| ==> s.channels[i].observationCount == |s.channels[i].observationIds|)
    && Partitions(ChannelIds(s.channels), Ids(s.observations))
    && s.findingCount == |s.canonical| + |s.advisories|
    && s.observationCount == |s.observations|
  }

  /** Every observation lies in exactly one finding, and ids are distinct. */
  ghost predicate FindingsAccount(s: Snapshot) {
    && NoDup(Ids(s.observations))
    && NoDup(StableIds(AllFindings(s)))
    && Partitions(FindingIds(AllFindings(s)), Ids(s.observations))
  }

  /** A finding's families are those of the observations it lists. */
  ghost predicate FamiliesAccount(s: Snapshot) {
    forall i :: 0 <= i < |AllFindings(s)| ==> FamiliesOf(AllFindings(s)[i], s.observations)
  }

  ghost predicate FamiliesOf(f: Finding, observations: seq<Observation>) {
    forall family :: family in f.families <==>
      exists j :: 0 <= j < |observations| && observations[j].observationId in f.observationIds && observations[j].family == family
  }

  ghost predicate Accounts(s: Snapshot) {
    ChannelsAccount(s) && FindingsAccount(s) && FamiliesAccount(s)
  }

  /** `len(s) == len(set(s))`. */
  function Distinct(s: seq<string>): (r: bool)
    ensures r <==> NoDup(s)
  {
    DedupeLength(s);
    |Dedupe(s)| == |s|
  }

  predicate Covers(all: seq<string>, some: seq<string>) {
    forall k :: 0 <= k < |some| ==> some[k] in all
  }

  /** The ids that the first `i` channels list; they are observed, and the channels count them. */
  ghost predicate ListedUpTo(s: Snapshot, i: nat, listed: seq<string>)
    requires i <= |s.channels|
  {
    && listed == Flatten(ChannelIds(s.channels)[..i])
    && (forall j :: 0 <= j < i ==> s.channels[j].observationCount == |s.channels[j].observationIds|)
    && (forall x :: x in listed ==> x in Ids(s.observations))
  }

  lemma ListedNext(s: Snapshot, i: nat, listed: seq<string>)
    requires i < |s.channels| && ListedUpTo(s, i, listed)
    requires var ids := s.channels[i].observationIds;
             s.channels[i].observationCount == |ids| && Covers(Ids(s.observations), ids)
    ensures ListedUpTo(s, i + 1, listed + s.channels[i].observationIds)
  {
    TakeNext(ChannelIds(s.channels), i);
    FlattenAppend(ChannelIds(s.channels)[..i], s.channels[i].observationIds);
  }

  lemma UnknownListed(s: Snapshot, i: nat)
    requires i < |s.channels| && !Covers(Ids(s.observations), s.channels[i].observationIds)
    ensures !Partitions(ChannelIds(s.channels), Ids(s.observations))
  {
    var ids := s.channels[i].observationIds;
    var k :| 0 <= k < |ids| && ids[k] !in Ids(s.observations);
    FlattenMembers(ChannelIds(s.channels));
    assert ids[k] in ChannelIds(s.channels)[i];
    assert ids[k] in Flatten(ChannelIds(s.channels));
  }

  lemma ListedAll(s: Snapshot, listed: seq<string>)
    requires ListedUpTo(s, |s.channels|, listed)
    ensures Partitions(ChannelIds(s.channels), Ids(s.observations))
            <==> NoDup(listed) && Covers(listed, Ids(s.observations))
  {
    TakeAll(ChannelIds(s.channels));
    if NoDup(listed) && Covers(listed, Ids(s.observations)) {
      assert forall x :: x in Ids(s.observations) ==> x in listed;
    }
  }

  ghost predicate CountsReconcile(channels: seq<ChannelRow>) {
    forall i :: 0 <= i < |channels| ==> channels[i].observationCount == |channels[i].observationIds|
  }

  /** The channels' own checks: what they list, or that some count or some id is wrong. */
  method ListChannels(s: Snapshot) returns (r: Result<seq<string>>)
    ensures r.Ok? ==> ListedUpTo(s, |s.channels|, r.value)
    ensures r.Err? ==> !CountsReconcile(s.channels) || !Partitions(ChannelIds(s.channels), Ids(s.observations))
  {
    var known := Ids(s.observations);
    var listed: seq<string> := [];
    for i := 0 to |s.channels|
      invariant ListedUpTo(s, i, listed)
    {
      var ids := s.channels[i].observationIds;
      if s.channels[i].observationCount != |ids| { return Err("channel observation count does not reconcile"); }
      if !Covers(known, ids) {
        UnknownListed(s, i);
        return Err("channel references unavailable observation evidence");
      }
      ListedNext(s, i, listed);
      listed := listed + ids;
    }
    r := Ok(listed);
  }

  /** What the snapshot accounts for, once its channels are listed. */
  lemma AccountMeans(s: Snapshot, listed: seq<string>)
    requires ListedUpTo(s, |s.channels|, listed)
    ensures ChannelsAccount(s)
       <==> (&& s.channels != [] && s.channelCount == |s.channels| && "" !in ChannelNames(s.channels) && Distinct(ChannelNames(s.channels))
             && Distinct(listed) && Covers(listed, Ids(s.observations))
             && s.findingCount == |s.canonical| + |s.advisories| && s.observationCount == |s.observations|)
  {
    ListedAll(s, listed);
  }

  /** The structural and accounting checks, in the order the code makes them. */
  method ValidateSnapshot(s: Snapshot) returns (r: Result<()>)
    ensures r.Ok? <==> ChannelsAccount(s)
  {
    if s.channels == [] { return Err("snapshot requires all analysis channels"); }
    if s.channelCount != |s.channels| { return Err("analysis channel count does not reconcile"); }
    var names := ChannelNames(s.channels);
    if "" in names || !Distinct(names) { return Err("analysis channel identities must be unique"); }
    var known := Ids(s.observations);
    var channels := ListChannels(s);
    if channels.Err? { return Err(channels.message); }
    var listed := channels.value;
    AccountMeans(s, listed);
    if !Distinct(listed) { return Err("an observation cannot belong to multiple analysis channels"); }
    if !Covers(listed, known) {
      return Err("analysis channels do not account for every observation");
    }
    if s.findingCount != |s.canonical| + |s.advisories| { return Err("snapshot finding count does not reconcile"); }
    if s.observationCount != |s.observations| { return Err("snapshot observation count does not reconcile"); }
    r := Ok(());
  }
}
