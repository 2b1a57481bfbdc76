/** `compare`: the lifecycle of every finding between an accepted baseline and the current run. */
module Compare {
  import opened Sequences
  import opened Ordering
  import opened Text
  import opened Drift

  datatype Document = Document(schemaVersion: string, repository: string, findings: Option<seq<Located>>)

  datatype Validity = Valid | Invalid | Unavailable

  datatype Lifecycle = Existing | Moved | NotObserved | Indeterminate | New

  datatype Row = Row(finding: Located, lifecycle: Lifecycle, reason: string, previousId: Option<string>,
                     lineShift: int, failed: seq<string>, previousState: string)

  datatype Outcome = Compared(rows: seq<Row>, previous: Validity) | Untrustworthy(baseline: Validity, current: Validity)
                   | ConservationFailure

  const SCHEMA_VERSION := "2"
  const COMPLETED := "COMPLETED"

  function IdsOf(findings: seq<Located>): (r: seq<string>)
    ensures |r| == |findings|
    ensures forall i :: 0 <= i < |findings| ==> r[i] == findings[i].stableId
  {
    seq(|findings|, i requires 0 <= i < |findings| => findings[i].stableId)
  }

  function ValidateEvidence(document: Option<Document>, repository: string): (r: Validity)
    ensures r == Valid ==> document.Some? && document.value.findings.Some? && DistinctIds(document.value.findings.value)
  {
    if document.None? then Unavailable
    else if document.value.schemaVersion != SCHEMA_VERSION || document.value.repository != repository then Invalid
    else if document.value.findings.None? then Invalid
    else
      var ids := IdsOf(document.value.findings.value);
      DedupeMembers(ids);
      if "" !in ids && |ids| == |Dedupe(ids)| then DistinctWhenDedupeKeepsAll(ids); Valid else Invalid
  }

  lemma DistinctWhenDedupeKeepsAll(ids: seq<string>)
    requires |ids| == |Dedupe(ids)|
    ensures NoDup(ids)
  {
    DedupeLength(ids);
    DedupeMembers(ids);
  }

  /** The dictionary by stable id. */
  function ById(findings: seq<Located>): (r: map<string, Located>)
    requires DistinctIds(findings)
    ensures forall id :: id in r <==> id in IdsOf(findings)
    ensures forall id :: id in r ==> r[id] in findings && r[id].stableId == id
    ensures forall f :: f in findings ==> f.stableId in r && r[f.stableId] == f
  {
    forall f, g | f in findings && g in findings && f.stableId == g.stableId ensures f == g { SameId(findings, f, g); }
    forall f | f in findings ensures f.stableId in IdsOf(findings) { FindingId(findings, f); }
    forall id | id in IdsOf(findings) ensures exists f :: f in findings && f.stableId == id { IdFinding(findings, id); }
    map f | f in findings :: f.stableId := f
  }

  lemma FindingId(findings: seq<Located>, f: Located)
    requires f in findings
    ensures f.stableId in IdsOf(findings)
  {
    var i :| 0 <= i < |findings| && findings[i] == f;
    assert IdsOf(findings)[i] == f.stableId;
  }

  lemma IdFinding(findings: seq<Located>, id: string)
    requires id in IdsOf(findings)
    ensures exists f :: f in findings && f.stableId == id
  {
    var i :| 0 <= i < |findings| && IdsOf(findings)[i] == id;
    assert findings[i] in findings;
  }

  function Within(ids: set<string>): string -> bool {
    id => id in ids
  }

  function Outside(ids: set<string>): string -> bool {
    id => id !in ids
  }

  /** `sorted(set(ids) & keep)`. */
  function SharedIds(ids: seq<string>, keep: set<string>): seq<string> {
    SortStrings(Filter(Within(keep), ids))
  }

  /** `sorted(set(ids) - drop)`. */
  function OtherIds(ids: seq<string>, drop: set<string>): seq<string> {
    SortStrings(Filter(Outside(drop), ids))
  }

  lemma SelectedIds(ids: seq<string>, some: set<string>)
    requires NoDup(ids)
    ensures NoDup(SharedIds(ids, some)) && forall id :: id in SharedIds(ids, some) <==> id in ids && id in some
    ensures NoDup(OtherIds(ids, some)) && forall id :: id in OtherIds(ids, some) <==> id in ids && id !in some
  {
    FilterMembers(Within(some), ids);
    FilterNoDup(Within(some), ids);
    PermutationMembers(Filter(Within(some), ids), SharedIds(ids, some));
    PermutationNoDup(Filter(Within(some), ids), SharedIds(ids, some));
    FilterMembers(Outside(some), ids);
    FilterNoDup(Outside(some), ids);
    PermutationMembers(Filter(Outside(some), ids), OtherIds(ids, some));
    PermutationNoDup(Filter(Outside(some), ids), OtherIds(ids, some));
  }

  /** The findings with the given ids, in that order. */
  function Pick(byId: map<string, Located>, ids: seq<string>): (r: seq<Located>)
    requires forall id :: id in ids ==> id in byId
    ensures |r| == |ids|
    ensures forall i :: 0 <= i < |ids| ==> r[i] == byId[ids[i]]
  {
    seq(|ids|, i requires 0 <= i < |ids| => byId[ids[i]])
  }

  lemma PickedIds(findings: seq<Located>, ids: seq<string>)
    requires DistinctIds(findings) && forall id :: id in ids ==> id in ById(findings)
    ensures IdsOf(Pick(ById(findings), ids)) == ids
  {
    forall i | 0 <= i < |ids| ensures Pick(ById(findings), ids)[i].stableId == ids[i] {
      assert ids[i] in ids;
    }
  }

  lemma PickedMembers(findings: seq<Located>, ids: seq<string>, f: Located)
    requires DistinctIds(findings) && forall id :: id in ids ==> id in ById(findings)
    ensures f in Pick(ById(findings), ids) <==> f in findings && f.stableId in ids
  {
    var r := Pick(ById(findings), ids);
    if f in r {
      var i :| 0 <= i < |r| && r[i] == f;
      assert ids[i] in ids;
    }
    if f in findings && f.stableId in ids {
      FindingId(findings, f);
      var i :| 0 <= i < |ids| && ids[i] == f.stableId;
      assert r[i] == f;
    }
  }

  /** Both runs without the ids they share, as `_strong_matches` receives them. */
  function Unmatched(findings: seq<Located>, others: seq<Located>): (r: seq<Located>)
    requires DistinctIds(findings) && DistinctIds(others)
    ensures DistinctIds(r)
    ensures forall f :: f in r <==> f in findings && f.stableId !in ById(others)
    ensures IdsOf(r) == OtherIds(IdsOf(findings), ById(others).Keys)
  {
    var ids := OtherIds(IdsOf(findings), ById(others).Keys);
    SelectedIds(IdsOf(findings), ById(others).Keys);
    var r := Pick(ById(findings), ids);
    PickedIds(findings, ids);
    forall f ensures f in r <==> f in findings && f.stableId !in ById(others) {
      PickedMembers(findings, ids, f);
      if f in findings { FindingId(findings, f); }
    }
    r
  }

  // ----- the parts of a row

  function Failed(statuses: map<string, string>): string -> bool {
    family => family !in statuses || statuses[family] != COMPLETED
  }

  /** The supporting families whose scanner did not complete. */
  function FailedFamilies(statuses: map<string, string>, finding: Located): seq<string> {
    Filter(Failed(statuses), finding.families)
  }

  function LostReason(statuses: map<string, string>, failed: seq<string>): string {
    if failed == [] then "NOT_DETECTED_BY_COMPLETED_OWNERS"
    else if exists i :: 0 <= i < |failed| && failed[i] !in statuses then "OWNING_CHANNEL_MISSING"
    else "OWNING_CHANNEL_FAILED"
  }

  function LostRow(statuses: map<string, string>, finding: Located): Row {
    var failed := FailedFamilies(statuses, finding);
    Row(finding, if failed == [] then NotObserved else Indeterminate, LostReason(statuses, failed), None, 0, failed, "")
  }

  function ExistingRow(finding: Located): Row {
    Row(finding, Existing, "EXACT_IDENTITY", None, 0, [], "")
  }

  function MovedRow(old_: Located, new_: Located): Row {
    Row(new_, Moved, "STRONG_DRIFT_MATCH", Some(old_.stableId), new_.startLine - old_.startLine, [], "")
  }

  function NewRow(unmatchedOld: seq<Located>, finding: Located): Row {
    Row(finding, New,
        if exists i :: 0 <= i < |unmatchedOld| && SamePlace(unmatchedOld[i], finding) then "AMBIGUOUS_DRIFT"
        else "NO_BASELINE_MATCH", None, 0, [], "")
  }

  // ----- what a comparison says

  /** The baseline id a row accounts for. */
  function BaselineId(row: Row): Option<string> {
    match row.lifecycle
    case Existing => Some(row.finding.stableId)
    case Moved => row.previousId
    case NotObserved => Some(row.finding.stableId)
    case Indeterminate => Some(row.finding.stableId)
    case New => None
  }

  /** The current id a row accounts for. */
  function CurrentId(row: Row): Option<string> {
    match row.lifecycle
    case Existing => Some(row.finding.stableId)
    case Moved => Some(row.finding.stableId)
    case NotObserved => None
    case Indeterminate => None
    case New => Some(row.finding.stableId)
  }

  /** The ids that the rows account for, in order. */
  function Accounted(id: Row -> Option<string>, rows: seq<Row>): seq<string> {
    if rows == [] then []
    else
      Accounted(id, rows[..|rows| - 1])
      + if id(rows[|rows| - 1]).Some? then [id(rows[|rows| - 1]).value] else []
  }

  lemma {:induction false} AccountedAppend(id: Row -> Option<string>, a: seq<Row>, b: seq<Row>)
    ensures Accounted(id, a + b) == Accounted(id, a) + Accounted(id, b)
  {
    if b == [] {
      assert a + b == a;
    } else {
      assert (a + b)[..|a + b| - 1] == a + b[..|b| - 1];
      AccountedAppend(id, a, b[..|b| - 1]);
    }
  }

  function RowIds(rows: seq<Row>): (r: seq<string>)
    ensures |r| == |rows|
    ensures forall i :: 0 <= i < |rows| ==> r[i] == rows[i].finding.stableId
  {
    seq(|rows|, i requires 0 <= i < |rows| => rows[i].finding.stableId)
  }

  /** Why a row is in the comparison; the previous-run column is filled in afterwards. */
  ghost predicate Explained(ratio: Ratio, statuses: map<string, string>, baseline: seq<Located>, current: seq<Located>, row: Row)
    requires DistinctIds(baseline) && DistinctIds(current)
  {
    var unmatchedOld, unmatchedNew := Unmatched(baseline, current), Unmatched(current, baseline);
    match row.lifecycle
    case Existing => row.finding in current && row.finding.stableId in ById(baseline) && row == ExistingRow(row.finding)
    case Moved =>
      exists o :: Matched(ratio, unmatchedOld, unmatchedNew, o, row.finding) && row == MovedRow(o, row.finding)
    case New =>
      && row.finding in unmatchedNew && row == NewRow(unmatchedOld, row.finding)
      && forall o :: !Matched(ratio, unmatchedOld, unmatchedNew, o, row.finding)
    case _ =>
      && row.finding in unmatchedOld && row == LostRow(statuses, row.finding)
      && forall n :: !Matched(ratio, unmatchedOld, unmatchedNew, row.finding, n)
  }

  /** Every baseline id and every current id is accounted for exactly once. */
  ghost predicate Conserves(baseline: seq<Located>, current: seq<Located>, rows: seq<Row>) {
    && multiset(Accounted(BaselineId, rows)) == multiset(IdsOf(baseline))
    && multiset(Accounted(CurrentId, rows)) == multiset(IdsOf(current))
    && NoDup(RowIds(rows))
  }

  // ----- segments

  function ExistingRows(current: seq<Located>, ids: seq<string>): (r: seq<Row>)
    requires DistinctIds(current) && forall id :: id in ids ==> id in ById(current)
    ensures |r| == |ids|
  {
    seq(|ids|, i requires 0 <= i < |ids| => ExistingRow(ById(current)[ids[i]]))
  }

  function MovedRows(baseline: seq<Located>, current: seq<Located>, moved: map<string, (string, real)>, ids: seq<string>): (r: seq<Row>)
    requires DistinctIds(baseline) && DistinctIds(current)
    requires forall id :: id in ids ==> id in moved && id in ById(baseline) && moved[id].0 in ById(current)
    ensures |r| == |ids|
  {
    seq(|ids|, i requires 0 <= i < |ids| => MovedRow(ById(baseline)[ids[i]], ById(current)[moved[ids[i]].0]))
  }

  function LostRows(statuses: map<string, string>, baseline: seq<Located>, ids: seq<string>): (r: seq<Row>)
    requires DistinctIds(baseline) && forall id :: id in ids ==> id in ById(baseline)
    ensures |r| == |ids|
  {
    seq(|ids|, i requires 0 <= i < |ids| => LostRow(statuses, ById(baseline)[ids[i]]))
  }

  function NewRows(unmatchedOld: seq<Located>, current: seq<Located>, ids: seq<string>): (r: seq<Row>)
    requires DistinctIds(current) && forall id :: id in ids ==> id in ById(current)
    ensures |r| == |ids|
  {
    seq(|ids|, i requires 0 <= i < |ids| => NewRow(unmatchedOld, ById(current)[ids[i]]))
  }

  // ----- conservation

  lemma {:induction false} AccountedAll(id: Row -> Option<string>, rows: seq<Row>, ids: seq<string>)
    requires |rows| == |ids| && forall i :: 0 <= i < |ids| ==> id(rows[i]) == Some(ids[i])
    ensures Accounted(id, rows) == ids
  {
    if rows != [] {
      AccountedAll(id, rows[..|rows| - 1], ids[..|ids| - 1]);
      assert ids == ids[..|ids| - 1] + [ids[|ids| - 1]];
    }
  }

  lemma {:induction false} AccountedNone(id: Row -> Option<string>, rows: seq<Row>)
    requires forall i :: 0 <= i < |rows| ==> id(rows[i]) == None
    ensures Accounted(id, rows) == []
  {
    if rows != [] {
      AccountedNone(id, rows[..|rows| - 1]);
    }
  }

  lemma AccountedFour(id: Row -> Option<string>, a: seq<Row>, b: seq<Row>, c: seq<Row>, d: seq<Row>)
    ensures Accounted(id, a + b + c + d) == Accounted(id, a) + Accounted(id, b) + Accounted(id, c) + Accounted(id, d)
  {
    AccountedAppend(id, a + b + c, d);
    AccountedAppend(id, a + b, c);
    AccountedAppend(id, a, b);
  }

  /** Three disjoint duplicate-free lists that together have the members of `all` are a permutation of it. */
  lemma ThreeParts(all: seq<string>, a: seq<string>, b: seq<string>, c: seq<string>)
    requires NoDup(all) && NoDup(a) && NoDup(b) && NoDup(c)
    requires forall x :: x in all <==> x in a || x in b || x in c
    requires forall x :: !(x in a && x in b) && !(x in a && x in c) && !(x in b && x in c)
    ensures NoDup(a + b + c) && multiset(a + b + c) == multiset(all)
  {
    NoDupAppend(a, b);
    forall x | x in a + b ensures x !in c {
      assert x in a || x in b;
    }
    NoDupAppend(a + b, c);
    assert forall x :: x in a + b + c <==> x in a || x in b || x in c;
    SameMembersSameMultiset(a + b + c, all);
  }

  /** The ids that the four loops of `compare` walk over. */
  datatype Plan = Plan(exact: seq<string>, moved: seq<string>, lost: seq<string>, fresh_: seq<string>)

  function MovedTargets(moved: map<string, (string, real)>, ids: seq<string>): (r: seq<string>)
    requires forall id :: id in ids ==> id in moved
    ensures |r| == |ids|
    ensures forall i :: 0 <= i < |ids| ==> r[i] == moved[ids[i]].0
  {
    seq(|ids|, i requires 0 <= i < |ids| => moved[ids[i]].0)
  }

  function TargetSet(moved: map<string, (string, real)>): set<string> {
    set id | id in moved :: moved[id].0
  }

  function PlanOf(baseline: seq<Located>, current: seq<Located>, moved: map<string, (string, real)>): Plan
    requires DistinctIds(baseline) && DistinctIds(current)
  {
    var oldIds := IdsOf(Unmatched(baseline, current));
    var newIds := IdsOf(Unmatched(current, baseline));
    Plan(SharedIds(IdsOf(baseline), ById(current).Keys),
         Filter(Within(moved.Keys), oldIds), Filter(Outside(moved.Keys), oldIds),
         Filter(Outside(TargetSet(moved)), newIds))
  }

  ghost predicate MovedBetween(ratio: Ratio, baseline: seq<Located>, current: seq<Located>, moved: map<string, (string, real)>)
    requires DistinctIds(baseline) && DistinctIds(current)
  {
    IsMatching(ratio, Unmatched(baseline, current), Unmatched(current, baseline), moved)
  }

  lemma DistinctIdsNoDup(findings: seq<Located>)
    requires DistinctIds(findings)
    ensures NoDup(IdsOf(findings))
  {
  }

  lemma UnmatchedIds(findings: seq<Located>, others: seq<Located>)
    requires DistinctIds(findings) && DistinctIds(others)
    ensures NoDup(IdsOf(Unmatched(findings, others)))
    ensures forall id :: id in IdsOf(Unmatched(findings, others)) <==> id in ById(findings) && id !in ById(others)
  {
    DistinctIdsNoDup(findings);
    SelectedIds(IdsOf(findings), ById(others).Keys);
  }

  /** Every key of the matching is an unmatched old id, every target an unmatched new one. */
  lemma MovedIds(ratio: Ratio, baseline: seq<Located>, current: seq<Located>, moved: map<string, (string, real)>, id: string)
    requires DistinctIds(baseline) && DistinctIds(current)
    requires MovedBetween(ratio, baseline, current, moved) && id in moved
    ensures id in ById(baseline) && id !in ById(current)
    ensures moved[id].0 in ById(current) && moved[id].0 !in ById(baseline)
    ensures var o, n := ById(baseline)[id], ById(current)[moved[id].0];
            Matched(ratio, Unmatched(baseline, current), Unmatched(current, baseline), o, n)
  {
    assert MatchedTo(ratio, Unmatched(baseline, current), Unmatched(current, baseline), id, moved[id]);
    var o, n :| Matched(ratio, Unmatched(baseline, current), Unmatched(current, baseline), o, n)
                && o.stableId == id && moved[id] == (n.stableId, ratio(o.anchor, n.anchor));
  }

  /** Filtering a duplicate-free list. */
  lemma FilterFacts(p: string -> bool, ids: seq<string>)
    requires NoDup(ids)
    ensures NoDup(Filter(p, ids)) && forall id :: id in Filter(p, ids) <==> id in ids && p(id)
  {
    FilterMembers(p, ids);
    FilterNoDup(p, ids);
  }

  lemma OldParts(ratio: Ratio, baseline: seq<Located>, current: seq<Located>, moved: map<string, (string, real)>)
    requires DistinctIds(baseline) && DistinctIds(current)
    requires MovedBetween(ratio, baseline, current, moved)
    ensures var p := PlanOf(baseline, current, moved);
            && NoDup(p.moved) && NoDup(p.lost) && (forall id :: id in p.moved <==> id in moved)
            && (forall id :: id in p.lost <==> id in ById(baseline) && id !in ById(current) && id !in moved)
  {
    var oldIds := IdsOf(Unmatched(baseline, current));
    UnmatchedIds(baseline, current);
    FilterFacts(Within(moved.Keys), oldIds);
    FilterFacts(Outside(moved.Keys), oldIds);
    forall id | id in moved ensures id in oldIds {
      MovedIds(ratio, baseline, current, moved, id);
    }
  }

  lemma PlanFacts(ratio: Ratio, baseline: seq<Located>, current: seq<Located>, moved: map<string, (string, real)>)
    requires DistinctIds(baseline) && DistinctIds(current)
    requires MovedBetween(ratio, baseline, current, moved)
    ensures var p := PlanOf(baseline, current, moved);
            && NoDup(p.exact) && NoDup(p.moved) && NoDup(p.lost) && NoDup(p.fresh_)
            && (forall id :: id in p.exact <==> id in ById(baseline) && id in ById(current))
            && (forall id :: id in p.moved <==> id in moved)
            && (forall id :: id in p.lost <==> id in ById(baseline) && id !in ById(current) && id !in moved)
            && (forall id :: id in p.fresh_ <==> id in ById(current) && id !in ById(baseline) && id !in TargetSet(moved))
  {
    DistinctIdsNoDup(baseline);
    SelectedIds(IdsOf(baseline), ById(current).Keys);
    OldParts(ratio, baseline, current, moved);
    UnmatchedIds(current, baseline);
    FilterFacts(Outside(TargetSet(moved)), IdsOf(Unmatched(current, baseline)));
  }

  lemma TargetFacts(ratio: Ratio, baseline: seq<Located>, current: seq<Located>, moved: map<string, (string, real)>)
    requires DistinctIds(baseline) && DistinctIds(current)
    requires MovedBetween(ratio, baseline, current, moved)
    ensures var p := PlanOf(baseline, current, moved);
            && (forall id :: id in p.moved ==> id in moved)
            && NoDup(MovedTargets(moved, p.moved))
            && (forall n :: n in MovedTargets(moved, p.moved) <==> n in TargetSet(moved))
            && (forall n :: n in TargetSet(moved) ==> n in ById(current) && n !in ById(baseline))
  {
    PlanFacts(ratio, baseline, current, moved);
    var ids := PlanOf(baseline, current, moved).moved;
    var targets := MovedTargets(moved, ids);
    forall i, j | 0 <= i < j < |ids| ensures targets[i] != targets[j] {
      if targets[i] == targets[j] {
        MatchingInjective(ratio, Unmatched(baseline, current), Unmatched(current, baseline), moved, ids[i], ids[j]);
      }
    }
    forall n | n in TargetSet(moved) ensures n in targets && n in ById(current) && n !in ById(baseline) {
      var id :| id in moved && moved[id].0 == n;
      MovedIds(ratio, baseline, current, moved, id);
      var i :| 0 <= i < |ids| && ids[i] == id;
      assert targets[i] == n;
    }
  }

  /** Every id of the plan can be looked up. */
  ghost predicate Fits(baseline: seq<Located>, current: seq<Located>, moved: map<string, (string, real)>, p: Plan)
    requires DistinctIds(baseline) && DistinctIds(current)
  {
    && (forall id :: id in p.exact ==> id in ById(current))
    && (forall id :: id in p.moved ==> id in moved && id in ById(baseline) && moved[id].0 in ById(current))
    && (forall id :: id in p.lost ==> id in ById(baseline))
    && (forall id :: id in p.fresh_ ==> id in ById(current))
  }

  /** All rows of a comparison, segment by segment. */
  ghost function AllRows(statuses: map<string, string>, baseline: seq<Located>, current: seq<Located>,
                         moved: map<string, (string, real)>, p: Plan): seq<Row>
    requires DistinctIds(baseline) && DistinctIds(current) && Fits(baseline, current, moved, p)
  {
    ExistingRows(current, p.exact) + MovedRows(baseline, current, moved, p.moved)
    + LostRows(statuses, baseline, p.lost) + NewRows(Unmatched(baseline, current), current, p.fresh_)
  }

  /** The four segments of rows follow the plan. */
  ghost predicate FollowsExact(rows: seq<Row>, ids: seq<string>) {
    |rows| == |ids| && forall i :: 0 <= i < |rows| ==> rows[i].lifecycle == Existing && rows[i].finding.stableId == ids[i]
  }

  ghost predicate FollowsMoved(rows: seq<Row>, ids: seq<string>, targets: seq<string>) {
    |rows| == |ids| == |targets|
    && forall i :: 0 <= i < |rows| ==> rows[i].lifecycle == Moved && rows[i].finding.stableId == targets[i] && rows[i].previousId == Some(ids[i])
  }

  ghost predicate FollowsLost(rows: seq<Row>, ids: seq<string>) {
    |rows| == |ids|
    && forall i :: 0 <= i < |rows| ==>
         (rows[i].lifecycle == NotObserved || rows[i].lifecycle == Indeterminate) && rows[i].finding.stableId == ids[i]
  }

  ghost predicate FollowsNew(rows: seq<Row>, ids: seq<string>) {
    |rows| == |ids| && forall i :: 0 <= i < |rows| ==> rows[i].lifecycle == New && rows[i].finding.stableId == ids[i]
  }

  ghost predicate FollowsPlan(a: seq<Row>, b: seq<Row>, c: seq<Row>, d: seq<Row>, p: Plan, targets: seq<string>) {
    FollowsExact(a, p.exact) && FollowsMoved(b, p.moved, targets) && FollowsLost(c, p.lost) && FollowsNew(d, p.fresh_)
  }

  lemma ExactAccounted(rows: seq<Row>, ids: seq<string>)
    requires FollowsExact(rows, ids)
    ensures Accounted(BaselineId, rows) == ids && Accounted(CurrentId, rows) == ids
  {
    AccountedAll(BaselineId, rows, ids);
    AccountedAll(CurrentId, rows, ids);
  }

  lemma MovedAccounted(rows: seq<Row>, ids: seq<string>, targets: seq<string>)
    requires FollowsMoved(rows, ids, targets)
    ensures Accounted(BaselineId, rows) == ids && Accounted(CurrentId, rows) == targets
  {
    AccountedAll(BaselineId, rows, ids);
    AccountedAll(CurrentId, rows, targets);
  }

  lemma LostAccounted(rows: seq<Row>, ids: seq<string>)
    requires FollowsLost(rows, ids)
    ensures Accounted(BaselineId, rows) == ids && Accounted(CurrentId, rows) == []
  {
    AccountedAll(BaselineId, rows, ids);
    AccountedNone(CurrentId, rows);
  }

  lemma NewAccounted(rows: seq<Row>, ids: seq<string>)
    requires FollowsNew(rows, ids)
    ensures Accounted(BaselineId, rows) == [] && Accounted(CurrentId, rows) == ids
  {
    AccountedNone(BaselineId, rows);
    AccountedAll(CurrentId, rows, ids);
  }

  lemma BaselineSegments(a: seq<Row>, b: seq<Row>, c: seq<Row>, d: seq<Row>, p: Plan, targets: seq<string>)
    requires FollowsPlan(a, b, c, d, p, targets)
    ensures Accounted(BaselineId, a + b + c + d) == p.exact + p.moved + p.lost
  {
    AccountedFour(BaselineId, a, b, c, d);
    ExactAccounted(a, p.exact);
    MovedAccounted(b, p.moved, targets);
    LostAccounted(c, p.lost);
    NewAccounted(d, p.fresh_);
    AppendNone(p.exact + p.moved + p.lost);
  }

  lemma CurrentSegments(a: seq<Row>, b: seq<Row>, c: seq<Row>, d: seq<Row>, p: Plan, targets: seq<string>)
    requires FollowsPlan(a, b, c, d, p, targets)
    ensures Accounted(CurrentId, a + b + c + d) == p.exact + targets + p.fresh_
  {
    AccountedFour(CurrentId, a, b, c, d);
    ExactAccounted(a, p.exact);
    MovedAccounted(b, p.moved, targets);
    LostAccounted(c, p.lost);
    NewAccounted(d, p.fresh_);
    AppendNone(p.exact + targets);
  }

  lemma AppendNone(s: seq<string>)
    ensures s + [] == s
  {
  }

  lemma RowIdsAppend(a: seq<Row>, b: seq<Row>)
    ensures RowIds(a + b) == RowIds(a) + RowIds(b)
  {
  }

  lemma RowSegments(a: seq<Row>, b: seq<Row>, c: seq<Row>, d: seq<Row>, p: Plan, targets: seq<string>)
    requires FollowsPlan(a, b, c, d, p, targets)
    ensures RowIds(a + b + c + d) == p.exact + targets + p.lost + p.fresh_
  {
    RowIdsAppend(a, b);
    RowIdsAppend(a + b, c);
    RowIdsAppend(a + b + c, d);
    assert RowIds(a) == p.exact && RowIds(b) == targets;
    assert RowIds(c) == p.lost && RowIds(d) == p.fresh_;
  }

  lemma MovedFollow(baseline: seq<Located>, current: seq<Located>, moved: map<string, (string, real)>, ids: seq<string>)
    requires DistinctIds(baseline) && DistinctIds(current)
    requires forall id :: id in ids ==> id in moved && id in ById(baseline) && moved[id].0 in ById(current)
    ensures FollowsMoved(MovedRows(baseline, current, moved, ids), ids, MovedTargets(moved, ids))
  {
    forall i | 0 <= i < |ids| ensures ids[i] in ids { }
  }

  lemma ExistingFollow(current: seq<Located>, ids: seq<string>)
    requires DistinctIds(current) && forall id :: id in ids ==> id in ById(current)
    ensures FollowsExact(ExistingRows(current, ids), ids)
  {
    forall i | 0 <= i < |ids| ensures ids[i] in ids { }
  }

  lemma LostFollow(statuses: map<string, string>, baseline: seq<Located>, ids: seq<string>)
    requires DistinctIds(baseline) && forall id :: id in ids ==> id in ById(baseline)
    ensures FollowsLost(LostRows(statuses, baseline, ids), ids)
  {
    forall i | 0 <= i < |ids| ensures ids[i] in ids { }
  }

  lemma NewFollow(unmatchedOld: seq<Located>, current: seq<Located>, ids: seq<string>)
    requires DistinctIds(current) && forall id :: id in ids ==> id in ById(current)
    ensures FollowsNew(NewRows(unmatchedOld, current, ids), ids)
  {
    forall i | 0 <= i < |ids| ensures ids[i] in ids { }
  }

  /** The four lists of rows follow the plan. */
  lemma RowsFollow(statuses: map<string, string>, baseline: seq<Located>, current: seq<Located>,
                   moved: map<string, (string, real)>, p: Plan)
    requires DistinctIds(baseline) && DistinctIds(current) && Fits(baseline, current, moved, p)
    ensures FollowsPlan(ExistingRows(current, p.exact), MovedRows(baseline, current, moved, p.moved),
                        LostRows(statuses, baseline, p.lost), NewRows(Unmatched(baseline, current), current, p.fresh_),
                        p, MovedTargets(moved, p.moved))
  {
    ExistingFollow(current, p.exact);
    MovedFollow(baseline, current, moved, p.moved);
    LostFollow(statuses, baseline, p.lost);
    NewFollow(Unmatched(baseline, current), current, p.fresh_);
  }

  lemma SegmentsAccount(statuses: map<string, string>, baseline: seq<Located>, current: seq<Located>,
                        moved: map<string, (string, real)>, p: Plan)
    requires DistinctIds(baseline) && DistinctIds(current) && Fits(baseline, current, moved, p)
    ensures var rows := AllRows(statuses, baseline, current, moved, p);
            && Accounted(BaselineId, rows) == p.exact + p.moved + p.lost
            && Accounted(CurrentId, rows) == p.exact + MovedTargets(moved, p.moved) + p.fresh_
            && RowIds(rows) == p.exact + MovedTargets(moved, p.moved) + p.lost + p.fresh_
  {
    var a, b := ExistingRows(current, p.exact), MovedRows(baseline, current, moved, p.moved);
    var c, d := LostRows(statuses, baseline, p.lost), NewRows(Unmatched(baseline, current), current, p.fresh_);
    RowsFollow(statuses, baseline, current, moved, p);
    BaselineSegments(a, b, c, d, p, MovedTargets(moved, p.moved));
    CurrentSegments(a, b, c, d, p, MovedTargets(moved, p.moved));
    RowSegments(a, b, c, d, p, MovedTargets(moved, p.moved));
  }

  lemma PlanFits(ratio: Ratio, baseline: seq<Located>, current: seq<Located>, moved: map<string, (string, real)>)
    requires DistinctIds(baseline) && DistinctIds(current)
    requires MovedBetween(ratio, baseline, current, moved)
    ensures Fits(baseline, current, moved, PlanOf(baseline, current, moved))
  {
    PlanFacts(ratio, baseline, current, moved);
    forall id | id in moved ensures id in ById(baseline) && moved[id].0 in ById(current) {
      MovedIds(ratio, baseline, current, moved, id);
    }
  }

  lemma PlanConserves(ratio: Ratio, statuses: map<string, string>, baseline: seq<Located>, current: seq<Located>,
                      moved: map<string, (string, real)>)
    requires DistinctIds(baseline) && DistinctIds(current)
    requires MovedBetween(ratio, baseline, current, moved)
    ensures Fits(baseline, current, moved, PlanOf(baseline, current, moved))
    ensures Conserves(baseline, current, AllRows(statuses, baseline, current, moved, PlanOf(baseline, current, moved)))
  {
    PlanFits(ratio, baseline, current, moved);
    PlanFacts(ratio, baseline, current, moved);
    TargetFacts(ratio, baseline, current, moved);
    var p := PlanOf(baseline, current, moved);
    forall id | id in p.moved ensures id !in ById(current) {
      MovedIds(ratio, baseline, current, moved, id);
    }
    SegmentsAccount(statuses, baseline, current, moved, p);
    DistinctIdsNoDup(baseline);
    DistinctIdsNoDup(current);
    var targets := MovedTargets(moved, p.moved);
    ThreeParts(IdsOf(baseline), p.exact, p.moved, p.lost);
    ThreeParts(IdsOf(current), p.exact, targets, p.fresh_);
    RowIdsDistinct(IdsOf(current), p.exact, targets, p.lost, p.fresh_);
  }

  lemma RowIdsDistinct(current: seq<string>, a: seq<string>, b: seq<string>, c: seq<string>, d: seq<string>)
    requires NoDup(a + b + d) && NoDup(c) && multiset(a + b + d) == multiset(current)
    requires forall x :: x in c ==> x !in current
    ensures NoDup(a + b + c + d)
  {
    PermutationMembers(a + b + d, current);
    forall x | x in a + b + d ensures x !in c {
    }
    NoDupAppend(a + b + d, c);
    assert multiset(a + b + d + c) == multiset(a + b + c + d);
    PermutationNoDup(a + b + d + c, a + b + c + d);
  }

  lemma NewIsExplained(ratio: Ratio, statuses: map<string, string>, baseline: seq<Located>, current: seq<Located>,
                       moved: map<string, (string, real)>, n: Located)
    requires DistinctIds(baseline) && DistinctIds(current)
    requires MovedBetween(ratio, baseline, current, moved)
    requires n in current && n.stableId !in ById(baseline) && n.stableId !in TargetSet(moved)
    ensures Explained(ratio, statuses, baseline, current, NewRow(Unmatched(baseline, current), n))
  {
    forall o ensures !Matched(ratio, Unmatched(baseline, current), Unmatched(current, baseline), o, n) {
      assert o.stableId in moved ==> moved[o.stableId].0 in TargetSet(moved);
    }
  }

  lemma LostIsExplained(ratio: Ratio, statuses: map<string, string>, baseline: seq<Located>, current: seq<Located>,
                        moved: map<string, (string, real)>, o: Located)
    requires DistinctIds(baseline) && DistinctIds(current)
    requires MovedBetween(ratio, baseline, current, moved)
    requires o in baseline && o.stableId !in ById(current) && o.stableId !in moved
    ensures Explained(ratio, statuses, baseline, current, LostRow(statuses, o))
  {
  }

  lemma MovedIsExplained(ratio: Ratio, statuses: map<string, string>, baseline: seq<Located>, current: seq<Located>,
                         moved: map<string, (string, real)>, id: string)
    requires DistinctIds(baseline) && DistinctIds(current)
    requires MovedBetween(ratio, baseline, current, moved)
    requires id in moved && id in ById(baseline) && moved[id].0 in ById(current)
    ensures Explained(ratio, statuses, baseline, current, MovedRow(ById(baseline)[id], ById(current)[moved[id].0]))
  {
    MovedIds(ratio, baseline, current, moved, id);
  }

  /** Every row of the list has its reason. */
  ghost predicate AllExplained(ratio: Ratio, statuses: map<string, string>, baseline: seq<Located>, current: seq<Located>, rows: seq<Row>)
    requires DistinctIds(baseline) && DistinctIds(current)
  {
    forall i :: 0 <= i < |rows| ==> Explained(ratio, statuses, baseline, current, rows[i])
  }

  lemma ExistingExplained(ratio: Ratio, statuses: map<string, string>, baseline: seq<Located>, current: seq<Located>, ids: seq<string>)
    requires DistinctIds(baseline) && DistinctIds(current)
    requires forall id :: id in ids ==> id in ById(baseline) && id in ById(current)
    ensures AllExplained(ratio, statuses, baseline, current, ExistingRows(current, ids))
  {
    forall i | 0 <= i < |ids| ensures Explained(ratio, statuses, baseline, current, ExistingRows(current, ids)[i]) {
      assert ids[i] in ids;
    }
  }

  lemma MovedExplained(ratio: Ratio, statuses: map<string, string>, baseline: seq<Located>, current: seq<Located>,
                       moved: map<string, (string, real)>, ids: seq<string>)
    requires DistinctIds(baseline) && DistinctIds(current) && MovedBetween(ratio, baseline, current, moved)
    requires forall id :: id in ids ==> id in moved && id in ById(baseline) && moved[id].0 in ById(current)
    ensures AllExplained(ratio, statuses, baseline, current, MovedRows(baseline, current, moved, ids))
  {
    forall i | 0 <= i < |ids| ensures Explained(ratio, statuses, baseline, current, MovedRows(baseline, current, moved, ids)[i]) {
      assert ids[i] in ids;
      MovedIsExplained(ratio, statuses, baseline, current, moved, ids[i]);
    }
  }

  lemma LostExplained(ratio: Ratio, statuses: map<string, string>, baseline: seq<Located>, current: seq<Located>,
                      moved: map<string, (string, real)>, ids: seq<string>)
    requires DistinctIds(baseline) && DistinctIds(current) && MovedBetween(ratio, baseline, current, moved)
    requires forall id :: id in ids ==> id in ById(baseline) && id !in ById(current) && id !in moved
    ensures AllExplained(ratio, statuses, baseline, current, LostRows(statuses, baseline, ids))
  {
    forall i | 0 <= i < |ids| ensures Explained(ratio, statuses, baseline, current, LostRows(statuses, baseline, ids)[i]) {
      assert ids[i] in ids;
      LostIsExplained(ratio, statuses, baseline, current, moved, ById(baseline)[ids[i]]);
    }
  }

  lemma NewExplained(ratio: Ratio, statuses: map<string, string>, baseline: seq<Located>, current: seq<Located>,
                     moved: map<string, (string, real)>, ids: seq<string>)
    requires DistinctIds(baseline) && DistinctIds(current) && MovedBetween(ratio, baseline, current, moved)
    requires forall id :: id in ids ==> id in ById(current) && id !in ById(baseline) && id !in TargetSet(moved)
    ensures AllExplained(ratio, statuses, baseline, current, NewRows(Unmatched(baseline, current), current, ids))
  {
    forall i | 0 <= i < |ids|
      ensures Explained(ratio, statuses, baseline, current, NewRows(Unmatched(baseline, current), current, ids)[i])
    {
      assert ids[i] in ids;
      NewIsExplained(ratio, statuses, baseline, current, moved, ById(current)[ids[i]]);
    }
  }

  lemma ExplainedAppend(ratio: Ratio, statuses: map<string, string>, baseline: seq<Located>, current: seq<Located>,
                        a: seq<Row>, b: seq<Row>)
    requires DistinctIds(baseline) && DistinctIds(current)
    requires AllExplained(ratio, statuses, baseline, current, a) && AllExplained(ratio, statuses, baseline, current, b)
    ensures AllExplained(ratio, statuses, baseline, current, a + b)
  {
  }

  lemma PlanExplained(ratio: Ratio, statuses: map<string, string>, baseline: seq<Located>, current: seq<Located>,
                      moved: map<string, (string, real)>)
    requires DistinctIds(baseline) && DistinctIds(current)
    requires MovedBetween(ratio, baseline, current, moved)
    ensures Fits(baseline, current, moved, PlanOf(baseline, current, moved))
    ensures AllExplained(ratio, statuses, baseline, current,
                         AllRows(statuses, baseline, current, moved, PlanOf(baseline, current, moved)))
  {
    PlanFits(ratio, baseline, current, moved);
    PlanFacts(ratio, baseline, current, moved);
    var p := PlanOf(baseline, current, moved);
    ExistingExplained(ratio, statuses, baseline, current, p.exact);
    MovedExplained(ratio, statuses, baseline, current, moved, p.moved);
    LostExplained(ratio, statuses, baseline, current, moved, p.lost);
    NewExplained(ratio, statuses, baseline, current, moved, p.fresh_);
    var a, b := ExistingRows(current, p.exact), MovedRows(baseline, current, moved, p.moved);
    var c, d := LostRows(statuses, baseline, p.lost), NewRows(Unmatched(baseline, current), current, p.fresh_);
    ExplainedAppend(ratio, statuses, baseline, current, a, b);
    ExplainedAppend(ratio, statuses, baseline, current, a + b, c);
    ExplainedAppend(ratio, statuses, baseline, current, a + b + c, d);
  }

  // ----- the previous-run column

  /** The finding `id` is the continuation of one that the previous run had elsewhere. */
  ghost predicate ContinuesOne(ratio: Ratio, previous: seq<Located>, current: seq<Located>, id: string)
    requires DistinctIds(current) && DistinctIds(previous)
  {
    exists o, n :: Matched(ratio, Unmatched(previous, current), Unmatched(current, previous), o, n) && n.stableId == id
  }

  /** `previous_states.get(id, "UNAVAILABLE")`. */
  ghost predicate PreviousState(ratio: Ratio, previous: Option<seq<Located>>, current: seq<Located>, id: string, state: string)
    requires DistinctIds(current) && (previous.Some? ==> DistinctIds(previous.value))
  {
    if previous.None? || id !in ById(current) then state == "UNAVAILABLE"
    else if id in ById(previous.value) then state == "EXISTING"
    else if ContinuesOne(ratio, previous.value, current, id) then state == "MOVED"
    else state == "NEW"
  }

  function StateMap(previous: seq<Located>, current: seq<Located>, targets: set<string>): (r: map<string, string>)
    requires DistinctIds(current) && DistinctIds(previous)
  {
    Layered(ById(current).Keys, ById(previous).Keys, targets, "NEW", "EXISTING", "MOVED")
  }

  /** `first` everywhere in `all`, then `second` where also in `some`, then `third` on `last`. */
  function Layered<V>(all: set<string>, some: set<string>, last: set<string>, first: V, second: V, third: V): (r: map<string, V>)
    ensures r.Keys == all + last
    ensures forall id :: id in r ==>
              r[id] == if id in last then third else if id in some then second else first
  {
    (map id | id in all :: first) + (map id | id in all && id in some :: second) + (map id | id in last :: third)
  }

  method PreviousStates(ratio: Ratio, previous: Option<seq<Located>>, current: seq<Located>) returns (states: map<string, string>)
    requires IsRatio(ratio) && DistinctIds(current) && (previous.Some? ==> DistinctIds(previous.value))
    ensures AllStates(ratio, previous, current, states)
  {
    states := map[];
    if previous.Some? {
      var moved := StrongMatches(ratio, Unmatched(previous.value, current), Unmatched(current, previous.value));
      states := StateMap(previous.value, current, TargetSet(moved));
      StatesOf(ratio, previous, current, moved);
    }
  }

  ghost predicate AllStates(ratio: Ratio, previous: Option<seq<Located>>, current: seq<Located>, states: map<string, string>)
    requires DistinctIds(current) && (previous.Some? ==> DistinctIds(previous.value))
  {
    forall id :: PreviousState(ratio, previous, current, id, StateIn(states, id))
  }

  function StateIn(states: map<string, string>, id: string): string {
    if id in states then states[id] else "UNAVAILABLE"
  }

  lemma StateIsRight(ratio: Ratio, previous: Option<seq<Located>>, current: seq<Located>,
                     moved: map<string, (string, real)>, id: string)
    requires DistinctIds(current) && previous.Some? && DistinctIds(previous.value)
    requires MovedBetween(ratio, previous.value, current, moved)
    ensures PreviousState(ratio, previous, current, id, StateIn(StateMap(previous.value, current, TargetSet(moved)), id))
  {
    StateOf(ratio, previous.value, current, moved, id);
  }

  lemma StatesOf(ratio: Ratio, previous: Option<seq<Located>>, current: seq<Located>, moved: map<string, (string, real)>)
    requires DistinctIds(current) && previous.Some? && DistinctIds(previous.value)
    requires MovedBetween(ratio, previous.value, current, moved)
    ensures AllStates(ratio, previous, current, StateMap(previous.value, current, TargetSet(moved)))
  {
    forall id
      ensures PreviousState(ratio, previous, current, id, StateIn(StateMap(previous.value, current, TargetSet(moved)), id))
    {
      StateIsRight(ratio, previous, current, moved, id);
    }
  }

  lemma StateOf(ratio: Ratio, previous: seq<Located>, current: seq<Located>, moved: map<string, (string, real)>, id: string)
    requires DistinctIds(current) && DistinctIds(previous) && MovedBetween(ratio, previous, current, moved)
    ensures id in TargetSet(moved) ==> id in ById(current) && id !in ById(previous)
    ensures id in TargetSet(moved) <==> ContinuesOne(ratio, previous, current, id)
  {
    if id in TargetSet(moved) {
      var old_ :| old_ in moved && moved[old_].0 == id;
      MovedIds(ratio, previous, current, moved, old_);
    }
    if o, n :| Matched(ratio, Unmatched(previous, current), Unmatched(current, previous), o, n) && n.stableId == id {
      assert o.stableId in moved && moved[o.stableId].0 == id;
    }
  }

  // ----- the algorithm

  method AppendExisting(rows: seq<Row>, current: seq<Located>, ids: seq<string>) returns (r: seq<Row>)
    requires DistinctIds(current) && forall id :: id in ids ==> id in ById(current)
    ensures r == rows + ExistingRows(current, ids)
  {
    var byId := ById(current);
    r := rows;
    for i := 0 to |ids|
      invariant r == rows + ExistingRows(current, ids)[..i]
    {
      TakeNext(ExistingRows(current, ids), i);
      r := r + [ExistingRow(byId[ids[i]])];
    }
    TakeAll(ExistingRows(current, ids));
  }

  method AppendMoved(rows: seq<Row>, baseline: seq<Located>, current: seq<Located>, moved: map<string, (string, real)>,
                     ids: seq<string>) returns (r: seq<Row>)
    requires DistinctIds(baseline) && DistinctIds(current)
    requires forall id :: id in ids ==> id in moved && id in ById(baseline) && moved[id].0 in ById(current)
    ensures r == rows + MovedRows(baseline, current, moved, ids)
  {
    var oldById, newById := ById(baseline), ById(current);
    r := rows;
    for i := 0 to |ids|
      invariant r == rows + MovedRows(baseline, current, moved, ids)[..i]
    {
      TakeNext(MovedRows(baseline, current, moved, ids), i);
      r := r + [MovedRow(oldById[ids[i]], newById[moved[ids[i]].0])];
    }
    TakeAll(MovedRows(baseline, current, moved, ids));
  }

  method AppendLost(rows: seq<Row>, statuses: map<string, string>, baseline: seq<Located>, ids: seq<string>) returns (r: seq<Row>)
    requires DistinctIds(baseline) && forall id :: id in ids ==> id in ById(baseline)
    ensures r == rows + LostRows(statuses, baseline, ids)
  {
    var byId := ById(baseline);
    r := rows;
    for i := 0 to |ids|
      invariant r == rows + LostRows(statuses, baseline, ids)[..i]
    {
      TakeNext(LostRows(statuses, baseline, ids), i);
      r := r + [LostRow(statuses, byId[ids[i]])];
    }
    TakeAll(LostRows(statuses, baseline, ids));
  }

  method AppendNew(rows: seq<Row>, unmatched: seq<Located>, current: seq<Located>, ids: seq<string>) returns (r: seq<Row>)
    requires DistinctIds(current) && forall id :: id in ids ==> id in ById(current)
    ensures r == rows + NewRows(unmatched, current, ids)
  {
    var byId := ById(current);
    r := rows;
    for i := 0 to |ids|
      invariant r == rows + NewRows(unmatched, current, ids)[..i]
    {
      TakeNext(NewRows(unmatched, current, ids), i);
      r := r + [NewRow(unmatched, byId[ids[i]])];
    }
    TakeAll(NewRows(unmatched, current, ids));
  }

  method BuildRows(statuses: map<string, string>, baseline: seq<Located>, current: seq<Located>,
                   moved: map<string, (string, real)>, p: Plan) returns (rows: seq<Row>)
    requires DistinctIds(baseline) && DistinctIds(current) && Fits(baseline, current, moved, p)
    ensures rows == AllRows(statuses, baseline, current, moved, p)
  {
    rows := AppendExisting([], current, p.exact);
    assert rows == ExistingRows(current, p.exact);
    rows := AppendMoved(rows, baseline, current, moved, p.moved);
    rows := AppendLost(rows, statuses, baseline, p.lost);
    rows := AppendNew(rows, Unmatched(baseline, current), current, p.fresh_);
  }

  function WithState(row: Row, states: map<string, string>): Row {
    row.(previousState := StateIn(states, row.finding.stableId))
  }

  /** The rows with their previous-run column. */
  function WithStates(rows: seq<Row>, states: map<string, string>): (r: seq<Row>)
    ensures |r| == |rows|
    ensures forall i :: 0 <= i < |rows| ==> r[i] == WithState(rows[i], states)
  {
    seq(|rows|, i requires 0 <= i < |rows| => WithState(rows[i], states))
  }

  lemma {:induction false} StatesKeepAccounts(id: Row -> Option<string>, rows: seq<Row>, states: map<string, string>)
    requires forall row :: id(WithState(row, states)) == id(row)
    ensures Accounted(id, WithStates(rows, states)) == Accounted(id, rows)
  {
    if rows != [] {
      var front := rows[..|rows| - 1];
      StatesKeepAccounts(id, front, states);
      assert WithStates(rows, states)[..|rows| - 1] == WithStates(front, states);
    }
  }

  lemma StatesConserve(baseline: seq<Located>, current: seq<Located>, rows: seq<Row>, states: map<string, string>)
    requires Conserves(baseline, current, rows)
    ensures Conserves(baseline, current, WithStates(rows, states))
  {
    StatesKeepAccounts(BaselineId, rows, states);
    StatesKeepAccounts(CurrentId, rows, states);
    assert RowIds(WithStates(rows, states)) == RowIds(rows);
  }

  /** The number of rows that account for a baseline finding. */
  function CountAccounted(rows: seq<Row>): nat {
    if rows == [] then 0
    else CountAccounted(rows[..|rows| - 1]) + if rows[|rows| - 1].lifecycle != New then 1 else 0
  }

  lemma {:induction false} CountIsAccounted(rows: seq<Row>)
    requires forall i :: 0 <= i < |rows| && rows[i].lifecycle == Moved ==> rows[i].previousId.Some?
    ensures CountAccounted(rows) == |Accounted(BaselineId, rows)|
  {
    if rows != [] {
      CountIsAccounted(rows[..|rows| - 1]);
    }
  }

  method Compare(ratio: Ratio, repository: string, current: Option<Document>, baseline: Option<Document>,
                 previous: Option<Document>, statuses: map<string, string>) returns (outcome: Outcome)
    requires IsRatio(ratio)
    ensures outcome.Untrustworthy? <==>
              !(ValidateEvidence(baseline, repository) == Valid && ValidateEvidence(current, repository) == Valid)
    ensures !outcome.ConservationFailure?
    ensures outcome.Compared? ==>
              var old_, new_ := baseline.value.findings.value, current.value.findings.value;
              var prior := if ValidateEvidence(previous, repository) == Valid then previous.value.findings else None;
              && Conserves(old_, new_, outcome.rows)
              && (forall row :: row in outcome.rows ==> Explained(ratio, statuses, old_, new_, row.(previousState := "")))
              && (forall row :: row in outcome.rows ==> PreviousState(ratio, prior, new_, row.finding.stableId, row.previousState))
  {
    var baselineValidity := ValidateEvidence(baseline, repository);
    var currentValidity := ValidateEvidence(current, repository);
    var previousValidity := ValidateEvidence(previous, repository);
    if baselineValidity != Valid || currentValidity != Valid {
      return Untrustworthy(baselineValidity, currentValidity);
    }
    var old_, new_ := baseline.value.findings.value, current.value.findings.value;
    var moved := StrongMatches(ratio, Unmatched(old_, new_), Unmatched(new_, old_));
    PlanConserves(ratio, statuses, old_, new_, moved);
    PlanExplained(ratio, statuses, old_, new_, moved);
    var rows := BuildRows(statuses, old_, new_, moved, PlanOf(old_, new_, moved));
    var prior := if previousValidity == Valid then previous.value.findings else None;
    var states := PreviousStates(ratio, prior, new_);
    StatesConserve(old_, new_, rows, states);
    ExplainedWithStates(ratio, statuses, old_, new_, prior, rows, states);
    rows := WithStates(rows, states);
    EveryBaselineRowCounted(old_, new_, rows);
    if CountAccounted(rows) != |old_| {
      return ConservationFailure;
    }
    outcome := Compared(rows, previousValidity);
  }

  lemma EveryBaselineRowCounted(baseline: seq<Located>, current: seq<Located>, rows: seq<Row>)
    requires Conserves(baseline, current, rows)
    requires forall row :: row in rows && row.lifecycle == Moved ==> row.previousId.Some?
    ensures CountAccounted(rows) == |baseline|
  {
    CountIsAccounted(rows);
    PermutationMembers(Accounted(BaselineId, rows), IdsOf(baseline));
  }

  lemma ExplainedIsBlank(ratio: Ratio, statuses: map<string, string>, baseline: seq<Located>, current: seq<Located>, row: Row)
    requires DistinctIds(baseline) && DistinctIds(current)
    requires Explained(ratio, statuses, baseline, current, row)
    ensures row.previousState == "" && (row.lifecycle == Moved ==> row.previousId.Some?)
  {
  }

  lemma ExplainedWithStates(ratio: Ratio, statuses: map<string, string>, baseline: seq<Located>, current: seq<Located>,
                            prior: Option<seq<Located>>, rows: seq<Row>, states: map<string, string>)
    requires DistinctIds(baseline) && DistinctIds(current) && (prior.Some? ==> DistinctIds(prior.value))
    requires AllExplained(ratio, statuses, baseline, current, rows)
    requires AllStates(ratio, prior, current, states)
    ensures forall row :: row in WithStates(rows, states) ==>
              && Explained(ratio, statuses, baseline, current, row.(previousState := ""))
              && PreviousState(ratio, prior, current, row.finding.stableId, row.previousState)
              && (row.lifecycle == Moved ==> row.previousId.Some?)
  {
    forall row | row in WithStates(rows, states)
      ensures && Explained(ratio, statuses, baseline, current, row.(previousState := ""))
              && PreviousState(ratio, prior, current, row.finding.stableId, row.previousState)
              && (row.lifecycle == Moved ==> row.previousId.Some?)
    {
      var i :| 0 <= i < |rows| && WithStates(rows, states)[i] == row;
      ExplainedIsBlank(ratio, statuses, baseline, current, rows[i]);
      assert row == WithState(rows[i], states);
      assert row.(previousState := "") == rows[i];
    }
  }
}
