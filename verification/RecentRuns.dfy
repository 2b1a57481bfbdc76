/** The bounded run history of the manifest: the latest record of every run, ten at most. */
module RecentRuns {
  import opened Sequences
  import opened Text

  datatype RunRecord = RunRecord(
    clientRequestId: Option<string>, requestId: Option<string>, collectedRun: Option<string>, analyzedSha: Option<string>)

  const MOST := 10

  /** The first field that is set; empty when none is. */
  function Identity(r: RunRecord): string {
    Or(r.clientRequestId, Or(r.requestId, Or(r.collectedRun, Or(r.analyzedSha, ""))))
  }

  ghost predicate SeenAfter(runs: seq<RunRecord>, i: int)
    requires 0 <= i < |runs|
  {
    exists j :: i < j < |runs| && Identity(runs[j]) == Identity(runs[i])
  }

  /** The latest record of every run that has an identity, in order. */
  ghost function Latest(runs: seq<RunRecord>): seq<RunRecord> {
    if runs == [] then []
    else
      var rest := Latest(runs[1..]);
      if Identity(runs[0]) == "" || SeenAfter(runs, 0) then rest else [runs[0]] + rest
  }

  function LastTen(runs: seq<RunRecord>): seq<RunRecord> {
    if |runs| <= MOST then runs else runs[|runs| - MOST..]
  }

  ghost predicate OccursFrom(runs: seq<RunRecord>, i: int, id: string) {
    exists j :: 0 <= i <= j < |runs| && Identity(runs[j]) == id
  }

  /** The identities of the records from `i` on. */
  ghost predicate SeenFrom(runs: seq<RunRecord>, i: int, seen: set<string>) {
    forall id :: id in seen <==> id != "" && OccursFrom(runs, i, id)
  }

  lemma OccursStep(runs: seq<RunRecord>, i: nat, other: string)
    requires i < |runs|
    ensures OccursFrom(runs, i, other) <==> other == Identity(runs[i]) || OccursFrom(runs, i + 1, other)
  {
    if OccursFrom(runs, i, other) && other != Identity(runs[i]) {
      var j :| i <= j < |runs| && Identity(runs[j]) == other;
      assert i + 1 <= j;
    }
  }

  lemma SeenStep(runs: seq<RunRecord>, i: nat, seen: set<string>)
    requires i < |runs| && SeenFrom(runs, i + 1, seen)
    ensures var id := Identity(runs[i]); SeenFrom(runs, i, if id == "" then seen else seen + {id})
  {
    forall other ensures OccursFrom(runs, i, other) <==> other == Identity(runs[i]) || OccursFrom(runs, i + 1, other) {
      OccursStep(runs, i, other);
    }
  }

  /** The tail's first record is repeated exactly when its identity occurs later on. */
  lemma SeenInTail(runs: seq<RunRecord>, i: nat)
    requires i < |runs|
    ensures SeenAfter(runs[i..], 0) <==> OccursFrom(runs, i + 1, Identity(runs[i]))
  {
    var tail, id := runs[i..], Identity(runs[i]);
    if OccursFrom(runs, i + 1, id) {
      var j :| i < j < |runs| && Identity(runs[j]) == id;
      assert tail[j - i] == runs[j];
    }
    if SeenAfter(tail, 0) {
      var j :| 0 < j < |tail| && Identity(tail[j]) == id;
      assert runs[i + j] == tail[j];
    }
  }

  lemma LatestStep(runs: seq<RunRecord>, i: nat, seen: set<string>)
    requires i < |runs| && SeenFrom(runs, i + 1, seen)
    ensures var id := Identity(runs[i]);
            && Latest(runs[i..]) == (if id == "" || id in seen then [] else [runs[i]]) + Latest(runs[i + 1..])
            && SeenFrom(runs, i, if id == "" then seen else seen + {id})
  {
    assert runs[i..][1..] == runs[i + 1..];
    SeenInTail(runs, i);
    SeenStep(runs, i, seen);
  }

  /** Walk backwards, keep what was not seen, and cut. */
  method TrimRuns(recent: seq<RunRecord>) returns (r: seq<RunRecord>)
    ensures r == LastTen(Latest(recent))
  {
    r := [];
    var seen: set<string> := {};
    var i := |recent|;
    while i > 0
      invariant 0 <= i <= |recent|
      invariant r == Latest(recent[i..]) && SeenFrom(recent, i, seen)
    {
      i := i - 1;
      LatestStep(recent, i, seen);
      var id := Identity(recent[i]);
      if id != "" && id !in seen {
        r := [recent[i]] + r;
      }
      if id != "" {
        seen := seen + {id};
      }
    }
    assert recent[0..] == recent;
    r := LastTen(r);
  }

  ghost predicate DistinctRuns(runs: seq<RunRecord>) {
    forall i, j :: 0 <= i < j < |runs| ==> Identity(runs[i]) != Identity(runs[j])
  }

  ghost predicate Identified(runs: seq<RunRecord>) {
    forall i :: 0 <= i < |runs| ==> Identity(runs[i]) != ""
  }

  ghost predicate LastSeen(runs: seq<RunRecord>, r: RunRecord) {
    exists i :: 0 <= i < |runs| && runs[i] == r && !SeenAfter(runs, i)
  }

  lemma LastSeenInRest(runs: seq<RunRecord>, r: RunRecord)
    requires runs != [] && LastSeen(runs[1..], r)
    ensures LastSeen(runs, r)
    ensures !SeenAfter(runs, 0) ==> Identity(r) != Identity(runs[0])
  {
    var i :| 0 <= i < |runs[1..]| && runs[1..][i] == r && !SeenAfter(runs[1..], i);
    LaterInRest(runs, i);
    assert runs[i + 1] == r;
  }

  /** What is kept has an identity, is not repeated later, and comes from the list. */
  lemma {:induction false} LatestMembers(runs: seq<RunRecord>)
    ensures Identified(Latest(runs)) && DistinctRuns(Latest(runs)) && |Latest(runs)| <= |runs|
    ensures forall r :: r in Latest(runs) ==> LastSeen(runs, r)
  {
    if runs != [] {
      var rest := Latest(runs[1..]);
      LatestMembers(runs[1..]);
      forall r | r in rest ensures LastSeen(runs, r) && (!SeenAfter(runs, 0) ==> Identity(r) != Identity(runs[0])) {
        LastSeenInRest(runs, r);
      }
      forall i | 0 <= i < |rest| ensures !SeenAfter(runs, 0) ==> Identity(rest[i]) != Identity(runs[0]) {
        assert rest[i] in rest;
      }
    }
  }

  /** And the last record of every identified run is kept. */
  lemma {:induction false} LastIsKept(runs: seq<RunRecord>, i: nat)
    requires i < |runs| && Identity(runs[i]) != "" && !SeenAfter(runs, i)
    ensures runs[i] in Latest(runs)
  {
    if i > 0 {
      LaterInRest(runs, i - 1);
      LastIsKept(runs[1..], i - 1);
    }
  }

  lemma LaterInRest(runs: seq<RunRecord>, i: nat)
    requires i + 1 < |runs|
    ensures SeenAfter(runs[1..], i) <==> SeenAfter(runs, i + 1)
  {
    var rest := runs[1..];
    if SeenAfter(rest, i) {
      var j :| i < j < |rest| && Identity(rest[j]) == Identity(rest[i]);
      assert runs[j + 1] == rest[j];
    }
    if SeenAfter(runs, i + 1) {
      var j :| i + 1 < j < |runs| && Identity(runs[j]) == Identity(runs[i + 1]);
      assert rest[j - 1] == runs[j];
    }
  }

  lemma RestDistinct(runs: seq<RunRecord>)
    requires runs != [] && Identified(runs) && DistinctRuns(runs)
    ensures Identified(runs[1..]) && DistinctRuns(runs[1..]) && !SeenAfter(runs, 0)
  {
    forall i, j | 0 <= i < j < |runs[1..]| ensures Identity(runs[1..][i]) != Identity(runs[1..][j]) {
      assert runs[1..][i] == runs[i + 1] && runs[1..][j] == runs[j + 1];
    }
  }

  lemma {:induction false} LatestSame(runs: seq<RunRecord>)
    requires Identified(runs) && DistinctRuns(runs)
    ensures Latest(runs) == runs
  {
    if runs != [] {
      RestDistinct(runs);
      LatestSame(runs[1..]);
      assert [runs[0]] + runs[1..] == runs;
    }
  }

  /** Trimming keeps ten distinct runs at most, and trimming again changes nothing. */
  lemma TrimmedExact(runs: seq<RunRecord>)
    ensures var r := LastTen(Latest(runs));
            |r| <= MOST && DistinctRuns(r) && Identified(r) && LastTen(Latest(r)) == r
  {
    LatestMembers(runs);
    LatestSame(LastTen(Latest(runs)));
  }

  /** What is kept of a list ends with what is kept of its tail. */
  lemma {:induction false} LatestEndsWith(runs: seq<RunRecord>, i: nat)
    requires i <= |runs|
    ensures var all, tail := Latest(runs), Latest(runs[i..]); |all| >= |tail| && all[|all| - |tail|..] == tail
  {
    if i == 0 {
      assert runs[0..] == runs;
    } else {
      assert runs[1..][i - 1..] == runs[i..];
      LatestEndsWith(runs[1..], i - 1);
      var rest, tail := Latest(runs[1..]), Latest(runs[i..]);
      assert ([runs[0]] + rest)[1 + |rest| - |tail|..] == rest[|rest| - |tail|..];
    }
  }

  lemma LaterInTail(runs: seq<RunRecord>, i: nat)
    requires i < |runs|
    ensures SeenAfter(runs[i..], 0) <==> SeenAfter(runs, i)
  {
    var tail := runs[i..];
    if SeenAfter(tail, 0) {
      var j :| 0 < j < |tail| && Identity(tail[j]) == Identity(tail[0]);
      assert runs[i + j] == tail[j];
    }
    if SeenAfter(runs, i) {
      var j :| i < j < |runs| && Identity(runs[j]) == Identity(runs[i]);
      assert tail[j - i] == runs[j];
    }
  }

  /** Where the last record of an identified run stands among those kept. */
  lemma KeptPlace(runs: seq<RunRecord>, i: nat)
    requires i < |runs| && Identity(runs[i]) != "" && !SeenAfter(runs, i)
    ensures var all, tail := Latest(runs), Latest(runs[i..]);
            0 < |tail| <= |all| && all[|all| - |tail|] == runs[i]
  {
    LatestEndsWith(runs, i);
    LaterInTail(runs, i);
    var all, tail := Latest(runs), Latest(runs[i..]);
    assert tail[0] == runs[i];
    assert all[|all| - |tail|..][0] == all[|all| - |tail|];
  }

  lemma AmongLastTen(all: seq<RunRecord>, k: nat)
    requires k < |all| && DistinctRuns(all)
    ensures all[k] in LastTen(all) <==> |all| - k <= MOST
  {
    var r := LastTen(all);
    var cut := |all| - |r|;
    assert forall j :: 0 <= j < |r| ==> r[j] == all[cut + j];
    if k >= cut {
      assert r[k - cut] == all[k];
    }
  }

  /** Is the record at `i` kept: identified, the last of its run, and followed by few enough others? */
  ghost predicate KeptAt(runs: seq<RunRecord>, i: int)
    requires 0 <= i < |runs|
  {
    Identity(runs[i]) != "" && !SeenAfter(runs, i) && |Latest(runs[i..])| <= MOST
  }

  /** A record stays in the history exactly when some place of it is kept. */
  lemma KeptExactly(runs: seq<RunRecord>, r: RunRecord)
    ensures r in LastTen(Latest(runs)) <==> SomePlaceKept(runs, r)
  {
    var all := Latest(runs);
    LatestMembers(runs);
    if r in LastTen(all) {
      assert r in all;
      var k :| 0 <= k < |all| && all[k] == r;
      assert LastSeen(runs, r);
      var i :| 0 <= i < |runs| && runs[i] == r && !SeenAfter(runs, i);
      KeptPlace(runs, i);
      AmongLastTen(all, |all| - |Latest(runs[i..])|);
    }
    if i :| 0 <= i < |runs| && runs[i] == r && KeptAt(runs, i) {
      KeptPlace(runs, i);
      AmongLastTen(all, |all| - |Latest(runs[i..])|);
    }
  }

  lemma TailOf(previous: seq<RunRecord>, entries: seq<RunRecord>, i: nat)
    requires i < |entries|
    ensures KeptAt(previous + entries, |previous| + i) <==> KeptAt(entries, i)
  {
    var runs := previous + entries;
    assert runs[|previous| + i..] == entries[i..] && runs[|previous| + i] == entries[i];
    LaterInTail(runs, |previous| + i);
    LaterInTail(entries, i);
  }

  /** A run appends its valid entries newest first, and its overlays after them. Its newest entry stays in the
      history exactly when some place of it among these entries is kept, whatever came before; and when
      no entry repeats it, exactly when it is identified, the last of its identity, and among ten at most. */
  lemma NewestIsKeptExactly(previous: seq<RunRecord>, entries: seq<RunRecord>)
    requires entries != []
    ensures var kept := entries[0] in LastTen(Latest(previous + entries));
            && (kept <==> SomePlaceKept(entries, entries[0]))
            && (entries[0] !in entries[1..] ==>
                  (kept <==> Identity(entries[0]) != "" && !SeenAfter(entries, 0) && |Latest(entries)| <= MOST))
  {
    KeptExactly(previous + entries, entries[0]);
    if SomePlaceKept(previous + entries, entries[0]) {
      PlaceInEntries(previous, entries);
    }
    if SomePlaceKept(entries, entries[0]) {
      PlaceInAll(previous, entries);
    }
    assert entries[0..] == entries;
    if entries[0] !in entries[1..] {
      OnlyPlace(entries);
    }
  }

  ghost predicate SomePlaceKept(runs: seq<RunRecord>, r: RunRecord) {
    exists i :: 0 <= i < |runs| && runs[i] == r && KeptAt(runs, i)
  }

  lemma LastOfIdentity(runs: seq<RunRecord>, i: nat, j: nat)
    requires i < |runs| && j < |runs| && runs[i] == runs[j] && KeptAt(runs, i)
    ensures i >= j
  {
  }

  lemma PlaceFromAll(previous: seq<RunRecord>, entries: seq<RunRecord>, i: nat)
    requires |previous| <= i < |previous| + |entries| && KeptAt(previous + entries, i)
    ensures entries[i - |previous|] == (previous + entries)[i] && KeptAt(entries, i - |previous|)
  {
    TailOf(previous, entries, i - |previous|);
  }

  lemma PlaceInEntries(previous: seq<RunRecord>, entries: seq<RunRecord>)
    requires entries != [] && SomePlaceKept(previous + entries, entries[0])
    ensures SomePlaceKept(entries, entries[0])
  {
    var runs, n := previous + entries, |previous|;
    var i :| 0 <= i < |runs| && runs[i] == entries[0] && KeptAt(runs, i);
    assert runs[n] == entries[0];
    LastOfIdentity(runs, i, n);
    PlaceFromAll(previous, entries, i);
  }

  lemma PlaceInAll(previous: seq<RunRecord>, entries: seq<RunRecord>)
    requires entries != [] && SomePlaceKept(entries, entries[0])
    ensures SomePlaceKept(previous + entries, entries[0])
  {
    var i :| 0 <= i < |entries| && entries[i] == entries[0] && KeptAt(entries, i);
    TailOf(previous, entries, i);
    assert (previous + entries)[|previous| + i] == entries[0];
  }

  lemma OnlyPlace(entries: seq<RunRecord>)
    requires entries != [] && entries[0] !in entries[1..]
    ensures SomePlaceKept(entries, entries[0]) <==> KeptAt(entries, 0)
  {
    forall i | 0 < i < |entries| ensures entries[i] != entries[0] {
      assert entries[1..][i - 1] == entries[i];
    }
  }

  function Numbered(n: nat): (r: seq<RunRecord>)
    ensures |r| == n && forall i :: 0 <= i < n ==> r[i] == RunRecord(None, Some(Dec(i)), None, None)
  {
    seq(n, (i: nat) => RunRecord(None, Some(Dec(i)), None, None))
  }

  lemma NumbersDiffer(n: nat)
    ensures forall i, j :: 0 <= i < j < n ==> Identity(Numbered(n)[i]) != Identity(Numbered(n)[j])
  {
    forall i, j | 0 <= i < j < n ensures Identity(Numbered(n)[i]) != Identity(Numbered(n)[j]) {
      if Dec(i) == Dec(j) {
        DecInjective(i, j);
      }
    }
  }

  /** With more than ten entries of different runs, the newest is gone. */
  lemma NewestOfMany(n: nat)
    requires n > MOST
    ensures Identified(Numbered(n)) && DistinctRuns(Numbered(n))
    ensures Numbered(n)[0] !in LastTen(Latest([] + Numbered(n)))
  {
    var entries := Numbered(n);
    NumbersDiffer(n);
    LatestSame(entries);
    assert [] + entries == entries;
    forall i | 0 < i < |entries| ensures entries[i] != entries[0] { }
    NewestIsKeptExactly([], entries);
  }

  /** Eleven entries of one run, and the newest is gone. */
  lemma NewestIsCut()
    ensures Identified(Numbered(11)) && DistinctRuns(Numbered(11))
    ensures Numbered(11)[0] !in LastTen(Latest([] + Numbered(11)))
  {
    NewestOfMany(11);
  }
}
