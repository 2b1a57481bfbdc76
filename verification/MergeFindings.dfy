/** How a lane of findings is merged, finding by finding: which observations and which
    families the finding of a given id holds afterwards. */
module MergeFindings {
  import opened Sequences
  import opened Text
  import opened Canonical
  import opened CanonicalTheorems
  import opened Accounting
  import opened Hosted
  import opened Merge

  ghost predicate Holds(findings: seq<Finding>, sid: string, id: string) {
    exists f :: f in findings && f.stableId == sid && id in f.observationIds
  }

  ghost predicate HoldsFamily(findings: seq<Finding>, sid: string, family: string) {
    exists f :: f in findings && f.stableId == sid && family in f.families
  }

  ghost predicate HasSid(findings: seq<Finding>, sid: string) {
    exists f :: f in findings && f.stableId == sid
  }

  lemma SidMeans(findings: seq<Finding>, sid: string)
    ensures sid in StableIds(findings) <==> HasSid(findings, sid)
  {
    if sid in StableIds(findings) {
      var i :| 0 <= i < |findings| && StableIds(findings)[i] == sid;
      assert findings[i] in findings;
    }
    if HasSid(findings, sid) {
      var f :| f in findings && f.stableId == sid;
      var i :| 0 <= i < |findings| && findings[i] == f;
      assert StableIds(findings)[i] == sid;
    }
  }

  lemma SameSid(findings: seq<Finding>, f: Finding, g: Finding)
    requires NoDup(StableIds(findings)) && f in findings && g in findings && f.stableId == g.stableId
    ensures f == g
  {
    var i :| 0 <= i < |findings| && findings[i] == f;
    var j :| 0 <= j < |findings| && findings[j] == g;
    assert StableIds(findings)[i] == StableIds(findings)[j];
  }

  /** Every finding lists each of its observations once. */
  ghost predicate RowsNoDup(findings: seq<Finding>) {
    forall f :: f in findings ==> NoDup(f.observationIds)
  }

  // ----- partitions, read through `Holds`

  lemma HoldsMeans(findings: seq<Finding>, id: string)
    ensures id in Flatten(FindingIds(findings)) <==> exists sid :: Holds(findings, sid, id)
  {
    FlattenMembers(FindingIds(findings));
    if id in Flatten(FindingIds(findings)) {
      var i :| 0 <= i < |findings| && id in FindingIds(findings)[i];
      assert findings[i] in findings;
      assert Holds(findings, findings[i].stableId, id);
    }
    if sid :| Holds(findings, sid, id) {
      var f :| f in findings && f.stableId == sid && id in f.observationIds;
      var i :| 0 <= i < |findings| && findings[i] == f;
      assert id in FindingIds(findings)[i];
    }
  }

  /** No observation is held by two findings. */
  ghost predicate HeldOnce(findings: seq<Finding>) {
    forall a, b, id :: Holds(findings, a, id) && Holds(findings, b, id) ==> a == b
  }

  lemma RowsApart(findings: seq<Finding>, i: nat, j: nat, id: string)
    requires i < j < |findings| && NoDup(StableIds(findings)) && HeldOnce(findings) && id in findings[i].observationIds
    ensures id !in findings[j].observationIds
  {
    assert findings[i] in findings && findings[j] in findings;
    assert StableIds(findings)[i] != StableIds(findings)[j];
    assert Holds(findings, findings[i].stableId, id);
    assert id in findings[j].observationIds ==> Holds(findings, findings[j].stableId, id);
  }

  lemma HeldOncePartitions(findings: seq<Finding>, all: seq<string>)
    requires NoDup(StableIds(findings)) && RowsNoDup(findings) && HeldOnce(findings)
    requires forall id :: id in all <==> exists sid :: Holds(findings, sid, id)
    ensures Partitions(FindingIds(findings), all)
  {
    var rows := FindingIds(findings);
    forall i | 0 <= i < |rows| ensures NoDup(rows[i]) {
      assert findings[i] in findings;
    }
    forall i, j, id | 0 <= i < j < |findings| && id in findings[i].observationIds ensures id !in rows[j] {
      RowsApart(findings, i, j, id);
    }
    FlattenNoDup(rows);
    forall id ensures id in Flatten(rows) <==> id in all {
      HoldsMeans(findings, id);
    }
  }

  lemma PartitionsHeldOnce(findings: seq<Finding>, all: seq<string>)
    requires Partitions(FindingIds(findings), all)
    ensures RowsNoDup(findings) && HeldOnce(findings)
    ensures forall id :: id in all <==> exists sid :: Holds(findings, sid, id)
  {
    var rows := FindingIds(findings);
    FlattenNoDupRows(rows);
    forall f | f in findings ensures NoDup(f.observationIds) {
      var i :| 0 <= i < |findings| && findings[i] == f;
      assert rows[i] == f.observationIds;
    }
    forall a, b, id | Holds(findings, a, id) && Holds(findings, b, id) ensures a == b {
      var f :| f in findings && f.stableId == a && id in f.observationIds;
      var g :| g in findings && g.stableId == b && id in g.observationIds;
      var i :| 0 <= i < |findings| && findings[i] == f;
      var j :| 0 <= j < |findings| && findings[j] == g;
      assert id in rows[i] && id in rows[j];
      assert i == j;
    }
    forall id ensures id in all <==> exists sid :: Holds(findings, sid, id) {
      HoldsMeans(findings, id);
    }
  }

  // ----- trimming

  /** `f` is what is left of the old finding `g`. */
  ghost predicate Trimmed(old_: seq<Finding>, byId: map<string, Observation>, families: set<string>, g: Finding, f: Finding) {
    g in old_ && f == Trim(g, byId, families) && Survives(f)
  }

  lemma {:induction false} TrimAllMembers(old_: seq<Finding>, byId: map<string, Observation>, families: set<string>)
    ensures forall f :: f in TrimAll(old_, byId, families) <==> exists g :: Trimmed(old_, byId, families, g, f)
  {
    if old_ != [] {
      var front, last := old_[..|old_| - 1], old_[|old_| - 1];
      TrimAllMembers(front, byId, families);
      assert old_ == front + [last];
      forall f ensures f in TrimAll(old_, byId, families) <==> exists g :: Trimmed(old_, byId, families, g, f) {
        if f in TrimAll(front, byId, families) {
          var g :| Trimmed(front, byId, families, g, f);
          assert Trimmed(old_, byId, families, g, f);
        } else if f in TrimAll(old_, byId, families) {
          assert Trimmed(old_, byId, families, last, f);
        }
        if g :| Trimmed(old_, byId, families, g, f) {
          assert g != last ==> Trimmed(front, byId, families, g, f);
        }
      }
    }
  }

  lemma {:induction false} TrimAllSids(old_: seq<Finding>, byId: map<string, Observation>, families: set<string>)
    requires NoDup(StableIds(old_))
    ensures NoDup(StableIds(TrimAll(old_, byId, families)))
    ensures forall sid :: sid in StableIds(TrimAll(old_, byId, families)) ==> sid in StableIds(old_)
  {
    if old_ != [] {
      var front, last := old_[..|old_| - 1], old_[|old_| - 1];
      assert StableIds(old_) == StableIds(front) + [last.stableId];
      NoDupParts(StableIds(front), [last.stableId]);
      TrimAllSids(front, byId, families);
      var trimmed := TrimAll(front, byId, families);
      assert forall sid :: sid in StableIds(old_) <==> sid in StableIds(front) || sid == last.stableId;
      if Survives(Trim(last, byId, families)) {
        assert StableIds(TrimAll(old_, byId, families)) == StableIds(trimmed) + [last.stableId];
        NoDupAppend(StableIds(trimmed), [last.stableId]);
      } else {
        assert TrimAll(old_, byId, families) == trimmed;
      }
    }
  }

  lemma TrimFacts(g: Finding, byId: map<string, Observation>, families: set<string>)
    ensures var f := Trim(g, byId, families);
            && f.stableId == g.stableId
            && (NoDup(g.observationIds) ==> NoDup(f.observationIds))
            && (forall id :: id in f.observationIds <==> id in g.observationIds && id in byId && byId[id].family !in families)
            && (forall family :: family in f.families <==> family in g.families && family !in families)
  {
    var keep := (id: string) => id in byId && byId[id].family !in families;
    FilterMembers(keep, g.observationIds);
    if NoDup(g.observationIds) {
      FilterNoDup(keep, g.observationIds);
    }
    FilterMembers(family => family !in families, g.families);
  }

  // ----- taking findings in

  lemma TakeInSids(combined: seq<Finding>, f: Finding)
    requires NoDup(StableIds(combined))
    ensures NoDup(StableIds(TakeIn(combined, f)))
    ensures StableIds(TakeIn(combined, f))
         == if HasSid(combined, f.stableId) then StableIds(combined) else StableIds(combined) + [f.stableId]
  {
    SidMeans(combined, f.stableId);
    if HasSid(combined, f.stableId) {
      var g :| g in combined && g.stableId == f.stableId;
      var i :| 0 <= i < |combined| && combined[i] == g;
      assert StableIds(TakeIn(combined, f)) == StableIds(combined);
    } else {
      forall i | 0 <= i < |combined| ensures combined[i].stableId != f.stableId {
        assert combined[i] in combined;
      }
      assert StableIds(combined + [f]) == StableIds(combined) + [f.stableId];
      NoDupAppend(StableIds(combined), [f.stableId]);
    }
  }

  lemma AbsorbFacts(prior: Finding, f: Finding)
    ensures Absorb(prior, f).stableId == prior.stableId
    ensures NoDup(Absorb(prior, f).observationIds)
    ensures forall id :: id in Absorb(prior, f).observationIds <==> id in prior.observationIds || id in f.observationIds
    ensures forall family :: family in Absorb(prior, f).families <==> family in prior.families || family in f.families
  {
    DedupeMembers(prior.observationIds + f.observationIds);
    DedupeMembers(prior.families + f.families);
  }

  /** The member of the new list that stands for a member of the old one. */
  lemma TakeInMember(combined: seq<Finding>, f: Finding, m: Finding)
    requires m in TakeIn(combined, f)
    ensures (m in combined && m.stableId != f.stableId)
         || (m == f && !HasSid(combined, f.stableId))
         || (exists k :: k in combined && k.stableId == f.stableId && m == Absorb(k, f))
  {
    var i :| 0 <= i < |TakeIn(combined, f)| && TakeIn(combined, f)[i] == m;
    if exists j :: 0 <= j < |combined| && combined[j].stableId == f.stableId {
      assert combined[i] in combined;
    } else {
      assert i < |combined| ==> combined[i] in combined;
    }
  }

  lemma TakeInKeeps(combined: seq<Finding>, f: Finding, k: Finding)
    requires k in combined
    ensures (if k.stableId == f.stableId then Absorb(k, f) else k) in TakeIn(combined, f)
  {
    var i :| 0 <= i < |combined| && combined[i] == k;
    if exists j :: 0 <= j < |combined| && combined[j].stableId == f.stableId {
      assert TakeIn(combined, f)[i] == if k.stableId == f.stableId then Absorb(k, f) else k;
    } else {
      assert TakeIn(combined, f)[i] == k;
    }
  }

  lemma TakeInNew(combined: seq<Finding>, f: Finding)
    ensures exists m :: m in TakeIn(combined, f) && m.stableId == f.stableId
                     && (forall id :: id in f.observationIds ==> id in m.observationIds)
                     && (forall family :: family in f.families ==> family in m.families)
  {
    if j :| 0 <= j < |combined| && combined[j].stableId == f.stableId {
      assert combined[j] in combined;
      TakeInKeeps(combined, f, combined[j]);
      AbsorbFacts(combined[j], f);
    } else {
      assert f in TakeIn(combined, f);
    }
  }

  lemma TakeInHolds(combined: seq<Finding>, f: Finding, sid: string, id: string)
    ensures Holds(TakeIn(combined, f), sid, id) <==> Holds(combined, sid, id) || (sid == f.stableId && id in f.observationIds)
  {
    if Holds(TakeIn(combined, f), sid, id) {
      var m :| m in TakeIn(combined, f) && m.stableId == sid && id in m.observationIds;
      TakeInMember(combined, f, m);
      if k :| k in combined && k.stableId == f.stableId && m == Absorb(k, f) {
        AbsorbFacts(k, f);
      }
    }
    if Holds(combined, sid, id) {
      var k :| k in combined && k.stableId == sid && id in k.observationIds;
      TakeInKeeps(combined, f, k);
      AbsorbFacts(k, f);
    }
    if sid == f.stableId && id in f.observationIds {
      TakeInNew(combined, f);
    }
  }

  lemma TakeInHoldsFamily(combined: seq<Finding>, f: Finding, sid: string, family: string)
    ensures HoldsFamily(TakeIn(combined, f), sid, family)
       <==> HoldsFamily(combined, sid, family) || (sid == f.stableId && family in f.families)
  {
    if HoldsFamily(TakeIn(combined, f), sid, family) {
      var m :| m in TakeIn(combined, f) && m.stableId == sid && family in m.families;
      TakeInMember(combined, f, m);
      if k :| k in combined && k.stableId == f.stableId && m == Absorb(k, f) {
        AbsorbFacts(k, f);
      }
    }
    if HoldsFamily(combined, sid, family) {
      var k :| k in combined && k.stableId == sid && family in k.families;
      TakeInKeeps(combined, f, k);
      AbsorbFacts(k, f);
    }
    if sid == f.stableId && family in f.families {
      TakeInNew(combined, f);
    }
  }

  lemma TakeInRowsNoDup(combined: seq<Finding>, f: Finding)
    requires RowsNoDup(combined) && NoDup(f.observationIds)
    ensures RowsNoDup(TakeIn(combined, f))
  {
    forall m | m in TakeIn(combined, f) ensures NoDup(m.observationIds) {
      TakeInMember(combined, f, m);
      if k :| k in combined && k.stableId == f.stableId && m == Absorb(k, f) {
        AbsorbFacts(k, f);
      }
    }
  }

  /** What the merged list holds: what the retained findings hold and what the incoming ones hold. */
  lemma {:induction false} TakeInAllFacts(combined: seq<Finding>, incoming: seq<Finding>)
    requires NoDup(StableIds(combined)) && RowsNoDup(combined) && RowsNoDup(incoming)
    ensures NoDup(StableIds(TakeInAll(combined, incoming))) && RowsNoDup(TakeInAll(combined, incoming))
    ensures forall sid, id :: Holds(TakeInAll(combined, incoming), sid, id) <==> Holds(combined, sid, id) || Holds(incoming, sid, id)
    ensures forall sid, family :: HoldsFamily(TakeInAll(combined, incoming), sid, family)
              <==> HoldsFamily(combined, sid, family) || HoldsFamily(incoming, sid, family)
    ensures forall sid :: sid in StableIds(TakeInAll(combined, incoming)) ==> sid in StableIds(combined) || sid in StableIds(incoming)
  {
    if incoming != [] {
      var front, last := incoming[..|incoming| - 1], incoming[|incoming| - 1];
      assert incoming == front + [last];
      TakeInAllFacts(combined, front);
      var before := TakeInAll(combined, front);
      TakeInSids(before, last);
      TakeInRowsNoDup(before, last);
      assert StableIds(incoming) == StableIds(front) + [last.stableId];
      forall sid, id ensures Holds(TakeInAll(combined, incoming), sid, id) <==> Holds(combined, sid, id) || Holds(incoming, sid, id) {
        TakeInHolds(before, last, sid, id);
        HoldsSnoc(front, last, sid, id);
      }
      forall sid, family ensures HoldsFamily(TakeInAll(combined, incoming), sid, family)
                             <==> HoldsFamily(combined, sid, family) || HoldsFamily(incoming, sid, family) {
        TakeInHoldsFamily(before, last, sid, family);
        HoldsFamilySnoc(front, last, sid, family);
      }
    }
  }

  lemma HoldsSnoc(findings: seq<Finding>, f: Finding, sid: string, id: string)
    ensures Holds(findings + [f], sid, id) <==> Holds(findings, sid, id) || (f.stableId == sid && id in f.observationIds)
  {
    assert f in findings + [f];
    if Holds(findings, sid, id) {
      var g :| g in findings && g.stableId == sid && id in g.observationIds;
      assert g in findings + [f];
    }
  }

  lemma HoldsFamilySnoc(findings: seq<Finding>, f: Finding, sid: string, family: string)
    ensures HoldsFamily(findings + [f], sid, family) <==> HoldsFamily(findings, sid, family) || (f.stableId == sid && family in f.families)
  {
    assert f in findings + [f];
    if HoldsFamily(findings, sid, family) {
      var g :| g in findings && g.stableId == sid && family in g.families;
      assert g in findings + [f];
    }
  }

  // ----- one lane

  /** An incoming finding of a replaced family. */
  ghost predicate Incoming(new_: seq<Finding>, families: set<string>, f: Finding) {
    f in new_ && Touches(f, families)
  }

  /** The observation stays with its old finding. */
  ghost predicate Stays(byId: map<string, Observation>, families: set<string>, id: string) {
    id in byId && byId[id].family !in families
  }

  lemma LaneFacts(old_: seq<Finding>, new_: seq<Finding>, byId: map<string, Observation>, families: set<string>)
    requires NoDup(StableIds(old_)) && RowsNoDup(old_) && RowsNoDup(new_)
    ensures var m := MergeLane(old_, new_, byId, families);
            && NoDup(StableIds(m)) && RowsNoDup(m)
            && (forall sid :: sid in StableIds(m) ==> sid in StableIds(old_) || sid in StableIds(new_))
  {
    var kept, taken := TrimAll(old_, byId, families), Filter(Touching(families), new_);
    TrimAllSids(old_, byId, families);
    TrimAllMembers(old_, byId, families);
    FilterMembers(Touching(families), new_);
    forall f | f in kept ensures NoDup(f.observationIds) {
      var g :| Trimmed(old_, byId, families, g, f);
      TrimFacts(g, byId, families);
    }
    TakeInAllFacts(kept, taken);
    forall sid | sid in StableIds(taken) ensures sid in StableIds(new_) {
      SidMeans(taken, sid);
      SidMeans(new_, sid);
    }
  }

  lemma KeptHolds(old_: seq<Finding>, byId: map<string, Observation>, families: set<string>, sid: string, id: string)
    ensures Holds(TrimAll(old_, byId, families), sid, id) <==> Holds(old_, sid, id) && Stays(byId, families, id)
  {
    TrimAllMembers(old_, byId, families);
    if Holds(TrimAll(old_, byId, families), sid, id) {
      var f :| f in TrimAll(old_, byId, families) && f.stableId == sid && id in f.observationIds;
      var g :| Trimmed(old_, byId, families, g, f);
      TrimFacts(g, byId, families);
    }
    if Holds(old_, sid, id) && Stays(byId, families, id) {
      var g :| g in old_ && g.stableId == sid && id in g.observationIds;
      TrimFacts(g, byId, families);
      assert Trimmed(old_, byId, families, g, Trim(g, byId, families));
    }
  }

  lemma KeptHoldsFamily(old_: seq<Finding>, byId: map<string, Observation>, families: set<string>, sid: string, family: string)
    ensures HoldsFamily(TrimAll(old_, byId, families), sid, family) <==> HoldsFamily(old_, sid, family) && family !in families
  {
    TrimAllMembers(old_, byId, families);
    if HoldsFamily(TrimAll(old_, byId, families), sid, family) {
      var f :| f in TrimAll(old_, byId, families) && f.stableId == sid && family in f.families;
      var g :| Trimmed(old_, byId, families, g, f);
      TrimFacts(g, byId, families);
    }
    if HoldsFamily(old_, sid, family) && family !in families {
      var g :| g in old_ && g.stableId == sid && family in g.families;
      TrimFacts(g, byId, families);
      assert Trimmed(old_, byId, families, g, Trim(g, byId, families));
    }
  }

  ghost predicate IncomingHolds(new_: seq<Finding>, families: set<string>, sid: string, id: string) {
    exists f :: Incoming(new_, families, f) && f.stableId == sid && id in f.observationIds
  }

  ghost predicate IncomingHoldsFamily(new_: seq<Finding>, families: set<string>, sid: string, family: string) {
    exists f :: Incoming(new_, families, f) && f.stableId == sid && family in f.families
  }

  lemma TakenHolds(new_: seq<Finding>, families: set<string>, sid: string, id: string)
    ensures Holds(Filter(Touching(families), new_), sid, id) <==> IncomingHolds(new_, families, sid, id)
  {
    FilterMembers(Touching(families), new_);
    if Holds(Filter(Touching(families), new_), sid, id) {
      var f :| f in Filter(Touching(families), new_) && f.stableId == sid && id in f.observationIds;
      assert Incoming(new_, families, f);
    }
  }

  lemma TakenHoldsFamily(new_: seq<Finding>, families: set<string>, sid: string, family: string)
    ensures HoldsFamily(Filter(Touching(families), new_), sid, family) <==> IncomingHoldsFamily(new_, families, sid, family)
  {
    FilterMembers(Touching(families), new_);
    if HoldsFamily(Filter(Touching(families), new_), sid, family) {
      var f :| f in Filter(Touching(families), new_) && f.stableId == sid && family in f.families;
      assert Incoming(new_, families, f);
    }
  }

  lemma TakenAndKept(old_: seq<Finding>, new_: seq<Finding>, byId: map<string, Observation>, families: set<string>)
    requires NoDup(StableIds(old_)) && RowsNoDup(old_) && RowsNoDup(new_)
    ensures var kept, taken := TrimAll(old_, byId, families), Filter(Touching(families), new_);
            NoDup(StableIds(kept)) && RowsNoDup(kept) && RowsNoDup(taken)
  {
    TrimAllSids(old_, byId, families);
    TrimAllMembers(old_, byId, families);
    FilterMembers(Touching(families), new_);
    forall f | f in TrimAll(old_, byId, families) ensures NoDup(f.observationIds) {
      var g :| Trimmed(old_, byId, families, g, f);
      TrimFacts(g, byId, families);
    }
  }

  /** A merged finding holds what stays of the old one and all of the incoming one. */
  lemma LaneHolds(old_: seq<Finding>, new_: seq<Finding>, byId: map<string, Observation>, families: set<string>, sid: string, id: string)
    requires NoDup(StableIds(old_)) && RowsNoDup(old_) && RowsNoDup(new_)
    ensures Holds(MergeLane(old_, new_, byId, families), sid, id)
       <==> (Holds(old_, sid, id) && Stays(byId, families, id)) || IncomingHolds(new_, families, sid, id)
  {
    TakenAndKept(old_, new_, byId, families);
    TakeInAllFacts(TrimAll(old_, byId, families), Filter(Touching(families), new_));
    KeptHolds(old_, byId, families, sid, id);
    TakenHolds(new_, families, sid, id);
  }

  lemma LaneHoldsFamily(old_: seq<Finding>, new_: seq<Finding>, byId: map<string, Observation>, families: set<string>, sid: string, family: string)
    requires NoDup(StableIds(old_)) && RowsNoDup(old_) && RowsNoDup(new_)
    ensures HoldsFamily(MergeLane(old_, new_, byId, families), sid, family)
       <==> (HoldsFamily(old_, sid, family) && family !in families) || IncomingHoldsFamily(new_, families, sid, family)
  {
    TakenAndKept(old_, new_, byId, families);
    TakeInAllFacts(TrimAll(old_, byId, families), Filter(Touching(families), new_));
    KeptHoldsFamily(old_, byId, families, sid, family);
    TakenHoldsFamily(new_, families, sid, family);
  }
}
