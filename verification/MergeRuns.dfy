/** Consequences of the merge theorem: siblings keep their evidence, a repeated merge changes
    nothing, and every sequence of lane-pure merges keeps the accounting invariant. */
module MergeRuns {
  import opened Sequences
  import opened Ordering
  import opened Text
  import opened Canonical
  import opened CanonicalTheorems
  import opened Accounting
  import opened Hosted
  import opened Merge
  import opened MergeFindings
  import opened MergeTheorems
  import opened MergeAccounts

  // ----- the merged snapshot lives in the same world

  lemma MergedRespects(w: World, old_: Snapshot, new_: Snapshot, selected: seq<string>)
    requires Ready(w, old_, new_)
    ensures Respects(w, MergeSnapshots(old_, new_, selected))
  {
    var m := MergeSnapshots(old_, new_, selected);
    MergedInventory(w, old_, new_, selected);
    forall o | o in m.observations ensures o.family == w.family(o.observationId) && o.family != "" {
      MergedObservation(w, old_, new_, selected, o.observationId);
    }
    forall row | row in m.channels ensures RowRespects(w, row) {
      var i :| 0 <= i < |m.channels| && m.channels[i] == row;
      MergedChannelAt(old_, new_, selected, i);
      MergedRowFacts(w, old_, new_, selected, ChannelUnion(old_, new_)[i]);
    }
    MergedLanes(w, old_, new_, selected);
  }

  // ----- siblings

  /** Exactly which observations a merge keeps: those of the old snapshot outside the replaced
      lanes, unchanged, and those of the incoming snapshot inside them. */
  lemma SiblingsKept(w: World, old_: Snapshot, new_: Snapshot, selected: seq<string>, o: Observation)
    requires Ready(w, old_, new_)
    ensures o in MergeSnapshots(old_, new_, selected).observations
       <==> ((o in old_.observations && !Owned(w, new_, selected, o.observationId))
             || (o in new_.observations && Owned(w, new_, selected, o.observationId)))
  {
    var m, id := MergeSnapshots(old_, new_, selected), o.observationId;
    MergedInventory(w, old_, new_, selected);
    MergedObservation(w, old_, new_, selected, id);
    var side := Side(w, old_, new_, selected, id);
    IdMeans(side.observations, id);
    if o in side.observations {
      assert id in Ids(m.observations);
      IdMeans(m.observations, id);
    }
  }

  // ----- idempotence

  lemma IncomingLanesAgree(w: World, a: Snapshot, b: Snapshot, new_: Snapshot, selected: seq<string>, sid: string, id: string)
    requires Ready(w, a, new_) && Ready(w, b, new_)
    requires IncomingHolds(AllFindings(new_), LostFamilies(a, new_, selected), sid, id)
    ensures IncomingHolds(AllFindings(new_), LostFamilies(b, new_, selected), sid, id)
  {
    var f :| Incoming(AllFindings(new_), LostFamilies(a, new_, selected), f) && f.stableId == sid && id in f.observationIds;
    var i :| 0 <= i < |f.families| && f.families[i] in LostFamilies(a, new_, selected);
    var o := FamilyObserved(new_, f, f.families[i]);
    LostFamilyExact(w, a, new_, selected, o);
    LostFamilyExact(w, b, new_, selected, o);
    assert Incoming(AllFindings(new_), LostFamilies(b, new_, selected), f);
  }

  lemma MergedReady(w: World, old_: Snapshot, new_: Snapshot, selected: seq<string>)
    requires Ready(w, old_, new_) && StrangersEmpty(old_, new_, selected) && MixedHeld(w, old_, new_, selected)
    ensures Ready(w, MergeSnapshots(old_, new_, selected), new_)
  {
    MergeAccountsExact(w, old_, new_, selected);
    MergedRespects(w, old_, new_, selected);
    AccountsKeyed(MergeSnapshots(old_, new_, selected));
  }

  lemma MixedHeldAgain(w: World, old_: Snapshot, new_: Snapshot, selected: seq<string>)
    requires Ready(w, old_, new_) && StrangersEmpty(old_, new_, selected) && MixedHeld(w, old_, new_, selected)
    ensures Keyed(MergeSnapshots(old_, new_, selected)) && MixedHeld(w, MergeSnapshots(old_, new_, selected), new_, selected)
  {
    var m := MergeSnapshots(old_, new_, selected);
    MergedReady(w, old_, new_, selected);
    forall sid, id | IncomingHolds(AllFindings(new_), LostFamilies(m, new_, selected), sid, id) && !Owned(w, new_, selected, id)
      ensures Holds(AllFindings(m), sid, id)
    {
      IncomingLanesAgree(w, m, old_, new_, selected, sid, id);
      MergedHoldsByLane(w, old_, new_, selected, sid, id);
    }
  }

  lemma SameInventory(keys: seq<string>, keys': seq<string>, byId: map<string, Observation>, byId': map<string, Observation>)
    requires NoDup(keys) && NoDup(keys')
    requires forall id :: id in keys <==> id in byId
    requires forall id :: id in keys' <==> id in byId'
    requires byId == byId'
    ensures SortedObservations(keys, byId) == SortedObservations(keys', byId')
  {
    SameMembersSameMultiset(keys, keys');
    StrTotalOrder();
    SortPermutation(StrLe, keys, keys');
  }

  lemma MergedInventoryIs(old_: Snapshot, new_: Snapshot, selected: seq<string>)
    requires Keyed(old_) && Keyed(new_)
    ensures var keys, byId := MergedKeys(old_, new_, LostFamilies(old_, new_, selected)), MergedObservations(old_, new_, selected);
            && NoDup(keys) && (forall id :: id in keys <==> id in byId)
            && MergeSnapshots(old_, new_, selected).observations == SortedObservations(keys, byId)
  {
    MergedKeysFacts(old_, new_, LostFamilies(old_, new_, selected));
  }

  ghost predicate AgreeAt(a: map<string, Observation>, b: map<string, Observation>, id: string) {
    (id in a <==> id in b) && (id in a ==> a[id] == b[id])
  }

  lemma AgreeingMaps(a: map<string, Observation>, b: map<string, Observation>)
    requires forall id :: AgreeAt(a, b, id)
    ensures a == b
  {
    forall id | id in a ensures id in b && a[id] == b[id] {
      assert AgreeAt(a, b, id);
    }
    forall id | id in b ensures id in a {
      assert AgreeAt(a, b, id);
    }
  }

  lemma SameDictionary(w: World, old_: Snapshot, new_: Snapshot, selected: seq<string>)
    requires Ready(w, old_, new_) && Ready(w, MergeSnapshots(old_, new_, selected), new_)
    ensures MergedObservations(MergeSnapshots(old_, new_, selected), new_, selected) == MergedObservations(old_, new_, selected)
  {
    forall id
      ensures AgreeAt(MergedObservations(MergeSnapshots(old_, new_, selected), new_, selected), MergedObservations(old_, new_, selected), id)
    {
      SameObservationAgain(w, old_, new_, selected, id);
    }
    AgreeingMaps(MergedObservations(MergeSnapshots(old_, new_, selected), new_, selected), MergedObservations(old_, new_, selected));
  }

  lemma SameKeys(w: World, old_: Snapshot, new_: Snapshot, selected: seq<string>)
    requires Ready(w, old_, new_) && Ready(w, MergeSnapshots(old_, new_, selected), new_)
    ensures MergeSnapshots(MergeSnapshots(old_, new_, selected), new_, selected).observations
         == MergeSnapshots(old_, new_, selected).observations
  {
    var m := MergeSnapshots(old_, new_, selected);
    SameDictionary(w, old_, new_, selected);
    MergedInventoryIs(old_, new_, selected);
    MergedInventoryIs(m, new_, selected);
    SameInventory(MergedKeys(old_, new_, LostFamilies(old_, new_, selected)), MergedKeys(m, new_, LostFamilies(m, new_, selected)),
                  MergedObservations(old_, new_, selected), MergedObservations(m, new_, selected));
  }

  lemma SameObservationAgain(w: World, old_: Snapshot, new_: Snapshot, selected: seq<string>, id: string)
    requires Ready(w, old_, new_) && Ready(w, MergeSnapshots(old_, new_, selected), new_)
    ensures AgreeAt(MergedObservations(MergeSnapshots(old_, new_, selected), new_, selected), MergedObservations(old_, new_, selected), id)
  {
    var m := MergeSnapshots(old_, new_, selected);
    MergedObservation(w, old_, new_, selected, id);
    MergedObservation(w, m, new_, selected, id);
    MergedInventory(w, old_, new_, selected);
    if id in ById(m.observations) {
      assert ById(m.observations)[id] in m.observations;
    }
  }

  lemma MergedRowLookup(w: World, old_: Snapshot, new_: Snapshot, selected: seq<string>, c: string)
    requires Ready(w, old_, new_) && Keyed(MergeSnapshots(old_, new_, selected))
    requires c in RowsByName(old_.channels) || c in RowsByName(new_.channels)
    ensures c in RowsByName(MergeSnapshots(old_, new_, selected).channels)
    ensures RowsByName(MergeSnapshots(old_, new_, selected).channels)[c] == MergedRow(old_, new_, selected, c)
  {
    var m, names := MergeSnapshots(old_, new_, selected), ChannelUnion(old_, new_);
    ChannelUnionFacts(old_, new_);
    var i :| 0 <= i < |names| && names[i] == c;
    MergedChannelAt(old_, new_, selected, i);
    MergedRowFacts(w, old_, new_, selected, c);
    assert m.channels[i] in m.channels;
  }

  lemma SameUnion(w: World, old_: Snapshot, new_: Snapshot, selected: seq<string>)
    requires Ready(w, old_, new_)
    ensures ChannelUnion(MergeSnapshots(old_, new_, selected), new_) == ChannelUnion(old_, new_)
  {
    var m := MergeSnapshots(old_, new_, selected);
    MergedNames(w, old_, new_, selected);
    ChannelUnionFacts(old_, new_);
    var a, b := ChannelNames(old_.channels) + ChannelNames(new_.channels), ChannelNames(m.channels) + ChannelNames(new_.channels);
    forall c ensures c in a <==> c in b {
      assert c in a <==> c in ChannelUnion(old_, new_);
    }
    SortedSetMembers(a, b);
  }

  lemma SameRow(w: World, old_: Snapshot, new_: Snapshot, selected: seq<string>, c: string)
    requires Ready(w, old_, new_) && Keyed(MergeSnapshots(old_, new_, selected))
    requires c in RowsByName(old_.channels) || c in RowsByName(new_.channels)
    ensures c in RowsByName(MergeSnapshots(old_, new_, selected).channels)
    ensures MergedRow(MergeSnapshots(old_, new_, selected), new_, selected, c) == MergedRow(old_, new_, selected, c)
  {
    MergedRowLookup(w, old_, new_, selected, c);
  }

  lemma SameChannels(w: World, old_: Snapshot, new_: Snapshot, selected: seq<string>)
    requires Ready(w, old_, new_) && Ready(w, MergeSnapshots(old_, new_, selected), new_)
    ensures MergeSnapshots(MergeSnapshots(old_, new_, selected), new_, selected).channels
         == MergeSnapshots(old_, new_, selected).channels
  {
    var m := MergeSnapshots(old_, new_, selected);
    var names := ChannelUnion(old_, new_);
    SameUnion(w, old_, new_, selected);
    MergedChannelCount(old_, new_, selected);
    MergedChannelCount(m, new_, selected);
    forall i | 0 <= i < |names| ensures MergeSnapshots(m, new_, selected).channels[i] == m.channels[i] {
      MergedChannelAt(old_, new_, selected, i);
      MergedChannelAt(m, new_, selected, i);
      SameRow(w, old_, new_, selected, names[i]);
    }
  }

  lemma MergedChannelCount(old_: Snapshot, new_: Snapshot, selected: seq<string>)
    requires Keyed(old_) && Keyed(new_)
    ensures |MergeSnapshots(old_, new_, selected).channels| == |ChannelUnion(old_, new_)|
  {
  }

  /** Merging the same incoming evidence again changes neither the observations, nor the
      channel rows, nor what any finding holds. */
  lemma MergeIdempotent(w: World, old_: Snapshot, new_: Snapshot, selected: seq<string>)
    requires Ready(w, old_, new_) && StrangersEmpty(old_, new_, selected) && MixedHeld(w, old_, new_, selected)
    ensures var m := MergeSnapshots(old_, new_, selected);
            && Keyed(m)
            && var again := MergeSnapshots(m, new_, selected);
               && again.observations == m.observations && again.channels == m.channels
               && (forall sid, id :: Holds(AllFindings(again), sid, id) <==> Holds(AllFindings(m), sid, id))
  {
    var m := MergeSnapshots(old_, new_, selected);
    MergedReady(w, old_, new_, selected);
    MixedHeldAgain(w, old_, new_, selected);
    SameKeys(w, old_, new_, selected);
    SameChannels(w, old_, new_, selected);
    forall sid, id
      ensures Holds(AllFindings(MergeSnapshots(m, new_, selected)), sid, id) <==> Holds(AllFindings(m), sid, id)
    {
      MergedHoldsByLane(w, old_, new_, selected, sid, id);
      MergedHoldsByLane(w, m, new_, selected, sid, id);
    }
  }

  // ----- sequences of merges

  /** Every incoming finding with evidence of a replaced lane has only evidence of replaced lanes. */
  ghost predicate LanePure(w: World, new_: Snapshot, selected: seq<string>)
    requires Keyed(new_)
  {
    forall f, a, b :: f in AllFindings(new_) && a in f.observationIds && b in f.observationIds && Owned(w, new_, selected, a)
      ==> Owned(w, new_, selected, b)
  }

  lemma LanePureIsHeld(w: World, old_: Snapshot, new_: Snapshot, selected: seq<string>)
    requires Ready(w, old_, new_) && LanePure(w, new_, selected)
    ensures MixedHeld(w, old_, new_, selected)
  {
    forall sid, id | IncomingHolds(AllFindings(new_), LostFamilies(old_, new_, selected), sid, id)
      ensures Owned(w, new_, selected, id)
    {
      var f :| Incoming(AllFindings(new_), LostFamilies(old_, new_, selected), f) && f.stableId == sid && id in f.observationIds;
      var i :| 0 <= i < |f.families| && f.families[i] in LostFamilies(old_, new_, selected);
      var o := FamilyObserved(new_, f, f.families[i]);
      LostFamilyExact(w, old_, new_, selected, o);
    }
  }

  datatype Step = Step(incoming: Snapshot, selected: seq<string>)

  /** An incoming snapshot that any accounted report of the same channels may take in. */
  ghost predicate Admissible(w: World, channels: set<string>, step: Step) {
    && Accounts(step.incoming) && Respects(w, step.incoming) && Keyed(step.incoming)
    && (forall c :: c in ChannelNames(step.incoming.channels) ==> c in channels)
    && LanePure(w, step.incoming, step.selected)
  }

  ghost predicate Current(w: World, channels: set<string>, s: Snapshot) {
    Accounts(s) && Respects(w, s) && forall c :: c in channels ==> c in ChannelNames(s.channels)
  }

  lemma OneStep(w: World, channels: set<string>, s: Snapshot, step: Step)
    requires Current(w, channels, s) && Admissible(w, channels, step)
    ensures Keyed(s) && Keyed(step.incoming) && Current(w, channels, MergeSnapshots(s, step.incoming, step.selected))
  {
    AccountsKeyed(s);
    LanePureIsHeld(w, s, step.incoming, step.selected);
    MergeAccountsExact(w, s, step.incoming, step.selected);
    MergedRespects(w, s, step.incoming, step.selected);
    MergedNames(w, s, step.incoming, step.selected);
    ChannelUnionFacts(s, step.incoming);
  }

  /** The snapshot after a sequence of merges. */
  ghost function Run(s: Snapshot, steps: seq<Step>): Snapshot {
    if steps == [] then s
    else
      var before, last := Run(s, steps[..|steps| - 1]), steps[|steps| - 1];
      if Keyed(before) && Keyed(last.incoming) then MergeSnapshots(before, last.incoming, last.selected) else before
  }

  /** From an accounted report, every sequence of admissible merges leads to accounted reports. */
  lemma {:induction false} EveryRunAccounts(w: World, channels: set<string>, s: Snapshot, steps: seq<Step>)
    requires Current(w, channels, s)
    requires forall i :: 0 <= i < |steps| ==> Admissible(w, channels, steps[i])
    ensures Current(w, channels, Run(s, steps))
  {
    if steps != [] {
      EveryRunAccounts(w, channels, s, steps[..|steps| - 1]);
      OneStep(w, channels, Run(s, steps[..|steps| - 1]), steps[|steps| - 1]);
    }
  }
}
