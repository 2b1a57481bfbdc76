/** `_strong_matches`: pairing findings that moved between two runs. */
module Drift {
  import opened Sequences
  import opened Ordering
  import opened Grouping
  import opened Text

  datatype Located = Located(stableId: string, file: string, concept: string, symbol: string,
                             startLine: int, anchor: string, families: seq<string>)

  /** A scored pair of an old and a new finding. */
  datatype Candidate = Candidate(score: real, distance: int, oldId: string, newId: string)

  /** `SequenceMatcher(None, old, new).ratio()`. */
  type Ratio = (string, string) -> real

  ghost predicate IsRatio(ratio: Ratio) {
    forall a, b :: 0.0 <= ratio(a, b) <= 1.0
  }

  function Abs(n: int): int {
    if n < 0 then -n else n
  }

  predicate SamePlace(old_: Located, new_: Located) {
    old_.file == new_.file && old_.concept == new_.concept && old_.symbol == new_.symbol
  }

  predicate IsCandidate(ratio: Ratio, old_: Located, new_: Located) {
    SamePlace(old_, new_) && ratio(old_.anchor, new_.anchor) >= 0.90 && Abs(old_.startLine - new_.startLine) <= 50
  }

  function Score(ratio: Ratio, old_: Located, new_: Located): Candidate {
    Candidate(ratio(old_.anchor, new_.anchor), Abs(old_.startLine - new_.startLine), old_.stableId, new_.stableId)
  }

  /** The ranking `(-score, distance, id)`, for rows that share their other id. */
  predicate RankLe(a: Candidate, b: Candidate) {
    if a.score != b.score then a.score > b.score
    else if a.distance != b.distance then a.distance < b.distance
    else PairLe((a.newId, a.oldId), (b.newId, b.oldId))
  }

  lemma RankTotal(a: Candidate, b: Candidate)
    ensures RankLe(a, b) || RankLe(b, a)
    ensures RankLe(a, b) && RankLe(b, a) ==> a == b
  {
    PairTotalOrder();
    assert PairLe((a.newId, a.oldId), (b.newId, b.oldId)) || PairLe((b.newId, b.oldId), (a.newId, a.oldId));
  }

  lemma RankTransitive(a: Candidate, b: Candidate, c: Candidate)
    requires RankLe(a, b) && RankLe(b, c)
    ensures RankLe(a, c)
  {
    PairTotalOrder();
  }

  lemma RankTotalOrder()
    ensures TotalOrder(RankLe)
  {
    forall a, b ensures (RankLe(a, b) || RankLe(b, a)) && (RankLe(a, b) && RankLe(b, a) ==> a == b) { RankTotal(a, b); }
    forall a, b, c | RankLe(a, b) && RankLe(b, c) ensures RankLe(a, c) { RankTransitive(a, b, c); }
  }

  function Least<T>(le: (T, T) -> bool, s: seq<T>): T
    requires s != []
  {
    if |s| == 1 then s[0]
    else
      var front := Least(le, s[..|s| - 1]);
      if le(front, s[|s| - 1]) then front else s[|s| - 1]
  }

  lemma {:induction false} LeastIsLeast<T(!new)>(le: (T, T) -> bool, s: seq<T>)
    requires TotalOrder(le) && s != []
    ensures Least(le, s) in s
    ensures forall x :: x in s ==> le(Least(le, s), x)
  {
    if |s| > 1 {
      LeastIsLeast(le, s[..|s| - 1]);
      assert s == s[..|s| - 1] + [s[|s| - 1]];
    }
  }

  function OldId(c: Candidate): string { c.oldId }

  function NewId(c: Candidate): string { c.newId }

  // ----- the specification

  ghost predicate DistinctIds(findings: seq<Located>) {
    forall i, j :: 0 <= i < j < |findings| ==> findings[i].stableId != findings[j].stableId
  }

  /** `o` is ranked before every other candidate of `n`. */
  ghost predicate BestFor(ratio: Ratio, baseline: seq<Located>, o: Located, n: Located) {
    forall p :: p in baseline && IsCandidate(ratio, p, n) ==> RankLe(Score(ratio, o, n), Score(ratio, p, n))
  }

  /** The matching in its own terms: `n` is the only candidate of `o`, and `o` is the best of `n`. */
  ghost predicate Matched(ratio: Ratio, baseline: seq<Located>, current: seq<Located>, o: Located, n: Located) {
    && o in baseline && n in current && IsCandidate(ratio, o, n)
    && (forall m :: m in current && IsCandidate(ratio, o, m) ==> m == n)
    && BestFor(ratio, baseline, o, n)
  }

  ghost predicate MatchedTo(ratio: Ratio, baseline: seq<Located>, current: seq<Located>, oldId: string, value: (string, real)) {
    exists o, n :: Matched(ratio, baseline, current, o, n)
                && o.stableId == oldId && value == (n.stableId, ratio(o.anchor, n.anchor))
  }

  /** What the returned dictionary says, for two runs with distinct ids. */
  ghost predicate IsMatching(ratio: Ratio, baseline: seq<Located>, current: seq<Located>,
                             matches: map<string, (string, real)>) {
    && (forall o, n :: Matched(ratio, baseline, current, o, n) ==>
          o.stableId in matches && matches[o.stableId] == (n.stableId, ratio(o.anchor, n.anchor)))
    && (forall id :: id in matches ==> MatchedTo(ratio, baseline, current, id, matches[id]))
  }

  lemma SameId(findings: seq<Located>, a: Located, b: Located)
    requires DistinctIds(findings) && a in findings && b in findings && a.stableId == b.stableId
    ensures a == b
  {
    var i :| 0 <= i < |findings| && findings[i] == a;
    var j :| 0 <= j < |findings| && findings[j] == b;
  }

  // ----- the candidate list

  /** The candidates of one old finding, in the order of the current run. */
  function ForOld(ratio: Ratio, o: Located, current: seq<Located>): seq<Candidate> {
    if current == [] then []
    else
      var n := current[|current| - 1];
      ForOld(ratio, o, current[..|current| - 1]) + if IsCandidate(ratio, o, n) then [Score(ratio, o, n)] else []
  }

  function Candidates(ratio: Ratio, baseline: seq<Located>, current: seq<Located>): seq<Candidate> {
    if baseline == [] then []
    else Candidates(ratio, baseline[..|baseline| - 1], current) + ForOld(ratio, baseline[|baseline| - 1], current)
  }

  ghost predicate Scored(ratio: Ratio, baseline: seq<Located>, current: seq<Located>, o: Located, n: Located, c: Candidate) {
    o in baseline && n in current && IsCandidate(ratio, o, n) && c == Score(ratio, o, n)
  }

  lemma {:induction false} ForOldMember(ratio: Ratio, o: Located, current: seq<Located>, c: Candidate)
    ensures c in ForOld(ratio, o, current) <==> exists n :: Scored(ratio, [o], current, o, n, c)
  {
    if current != [] {
      var front, last := current[..|current| - 1], current[|current| - 1];
      ForOldMember(ratio, o, front, c);
      assert current == front + [last];
      if c in ForOld(ratio, o, front) {
        var n :| Scored(ratio, [o], front, o, n, c);
        assert Scored(ratio, [o], current, o, n, c);
      } else if c in ForOld(ratio, o, current) {
        assert Scored(ratio, [o], current, o, last, c);
      }
      if n :| Scored(ratio, [o], current, o, n, c) {
        assert n != last ==> Scored(ratio, [o], front, o, n, c);
      }
    }
  }

  lemma {:induction false} CandidateMember(ratio: Ratio, baseline: seq<Located>, current: seq<Located>, c: Candidate)
    ensures c in Candidates(ratio, baseline, current) <==> exists o, n :: Scored(ratio, baseline, current, o, n, c)
  {
    if baseline != [] {
      var front, last := baseline[..|baseline| - 1], baseline[|baseline| - 1];
      CandidateMember(ratio, front, current, c);
      ForOldMember(ratio, last, current, c);
      assert baseline == front + [last];
      if c in Candidates(ratio, front, current) {
        var o, n :| Scored(ratio, front, current, o, n, c);
        assert Scored(ratio, baseline, current, o, n, c);
      } else if c in ForOld(ratio, last, current) {
        var n :| Scored(ratio, [last], current, last, n, c);
        assert Scored(ratio, baseline, current, last, n, c);
      }
      if o, n :| Scored(ratio, baseline, current, o, n, c) {
        if o == last {
          assert Scored(ratio, [last], current, last, n, c);
        } else {
          assert Scored(ratio, front, current, o, n, c);
        }
      }
    }
  }

  lemma {:induction false} ForOldNoDup(ratio: Ratio, o: Located, current: seq<Located>)
    requires DistinctIds(current)
    ensures NoDup(ForOld(ratio, o, current))
  {
    if current != [] {
      var front, last := current[..|current| - 1], current[|current| - 1];
      ForOldNoDup(ratio, o, front);
      if IsCandidate(ratio, o, last) {
        forall c | c in ForOld(ratio, o, front) ensures c != Score(ratio, o, last) {
          ForOldMember(ratio, o, front, c);
          var n :| Scored(ratio, [o], front, o, n, c);
          var i :| 0 <= i < |front| && front[i] == n;
          assert current[i] == n;
        }
        NoDupAppend(ForOld(ratio, o, front), [Score(ratio, o, last)]);
      }
    }
  }

  lemma {:induction false} CandidatesNoDup(ratio: Ratio, baseline: seq<Located>, current: seq<Located>)
    requires DistinctIds(baseline) && DistinctIds(current)
    ensures NoDup(Candidates(ratio, baseline, current))
  {
    if baseline != [] {
      var front, last := baseline[..|baseline| - 1], baseline[|baseline| - 1];
      CandidatesNoDup(ratio, front, current);
      ForOldNoDup(ratio, last, current);
      forall c | c in Candidates(ratio, front, current) ensures c !in ForOld(ratio, last, current) {
        CandidateMember(ratio, front, current, c);
        ForOldMember(ratio, last, current, c);
        var o, n :| Scored(ratio, front, current, o, n, c);
        var i :| 0 <= i < |front| && front[i] == o;
        assert baseline[i] == o;
      }
      NoDupAppend(Candidates(ratio, front, current), ForOld(ratio, last, current));
    }
  }

  // ----- the decision about one old id

  /** The test of the matching loop, without its `used_new` guard. */
  predicate Accepts(candidates: seq<Candidate>, id: string) {
    var own := Bucket(OldId, candidates, id);
    && own != []
    && var ranked := Sort(RankLe, own);
       var best := ranked[0];
       var margin := if |ranked| > 1 then best.score - ranked[1].score else 1.0;
       var rivals := Bucket(NewId, candidates, best.newId);
       && rivals != [] && margin >= 0.15 && Least(RankLe, rivals).oldId == id
  }

  /** Scores lie in [0.90, 1], so a margin of 0.15 leaves no room for a second candidate. */
  lemma AcceptedIsAlone(ratio: Ratio, baseline: seq<Located>, current: seq<Located>, id: string)
    requires IsRatio(ratio)
    requires Accepts(Candidates(ratio, baseline, current), id)
    ensures |Bucket(OldId, Candidates(ratio, baseline, current), id)| == 1
  {
    var candidates := Candidates(ratio, baseline, current);
    var own := Bucket(OldId, candidates, id);
    BucketMembers(OldId, candidates, id);
    var ranked := Sort(RankLe, own);
    forall i | 0 <= i < |ranked| ensures 0.90 <= ranked[i].score <= 1.0 {
      assert ranked[i] in ranked && ranked[i] in own;
      CandidateMember(ratio, baseline, current, ranked[i]);
    }
  }

  lemma SingletonBucket(candidates: seq<Candidate>, id: string, c: Candidate)
    requires NoDup(candidates) && c in candidates && c.oldId == id
    ensures |Bucket(OldId, candidates, id)| == 1 <==> forall d :: d in candidates && d.oldId == id ==> d == c
    ensures |Bucket(OldId, candidates, id)| == 1 ==> Bucket(OldId, candidates, id) == [c]
  {
    var own := Bucket(OldId, candidates, id);
    BucketMembers(OldId, candidates, id);
    FilterNoDup(HasKey(OldId, id), candidates);
    assert c in own;
    if |own| == 1 {
      assert own == [c];
    } else {
      assert own[0] != own[1];
      assert own[0] in own && own[1] in own;
    }
  }

  lemma OnlyCandidate(ratio: Ratio, baseline: seq<Located>, current: seq<Located>, o: Located, n: Located)
    requires DistinctIds(baseline) && DistinctIds(current)
    requires o in baseline && n in current && IsCandidate(ratio, o, n)
    ensures Score(ratio, o, n) in Candidates(ratio, baseline, current)
    ensures (forall d :: d in Candidates(ratio, baseline, current) && d.oldId == o.stableId ==> d == Score(ratio, o, n))
       <==> (forall m :: m in current && IsCandidate(ratio, o, m) ==> m == n)
  {
    var candidates := Candidates(ratio, baseline, current);
    assert Scored(ratio, baseline, current, o, n, Score(ratio, o, n));
    CandidateMember(ratio, baseline, current, Score(ratio, o, n));
    forall m | m in current && IsCandidate(ratio, o, m) ensures Score(ratio, o, m) in candidates {
      assert Scored(ratio, baseline, current, o, m, Score(ratio, o, m));
      CandidateMember(ratio, baseline, current, Score(ratio, o, m));
    }
    if forall d :: d in candidates && d.oldId == o.stableId ==> d == Score(ratio, o, n) {
      forall m | m in current && IsCandidate(ratio, o, m) ensures m == n {
        assert Score(ratio, o, m) == Score(ratio, o, n);
        SameId(current, m, n);
      }
    }
    if forall m :: m in current && IsCandidate(ratio, o, m) ==> m == n {
      forall d | d in candidates && d.oldId == o.stableId ensures d == Score(ratio, o, n) {
        CandidateMember(ratio, baseline, current, d);
        var p, m :| Scored(ratio, baseline, current, p, m, d);
        SameId(baseline, p, o);
      }
    }
  }

  lemma BestRival(ratio: Ratio, baseline: seq<Located>, current: seq<Located>, o: Located, n: Located)
    requires DistinctIds(baseline) && DistinctIds(current)
    requires o in baseline && n in current && IsCandidate(ratio, o, n)
    ensures var rivals := Bucket(NewId, Candidates(ratio, baseline, current), n.stableId);
            rivals != [] && (Least(RankLe, rivals).oldId == o.stableId <==> BestFor(ratio, baseline, o, n))
  {
    var candidates := Candidates(ratio, baseline, current);
    var rivals := Bucket(NewId, candidates, n.stableId);
    BucketMembers(NewId, candidates, n.stableId);
    RankTotalOrder();
    forall p | p in baseline && IsCandidate(ratio, p, n) ensures Score(ratio, p, n) in rivals {
      assert Scored(ratio, baseline, current, p, n, Score(ratio, p, n));
      CandidateMember(ratio, baseline, current, Score(ratio, p, n));
    }
    LeastIsLeast(RankLe, rivals);
    var least := Least(RankLe, rivals);
    CandidateMember(ratio, baseline, current, least);
    var p, m :| Scored(ratio, baseline, current, p, m, least);
    SameId(current, m, n);
    if least.oldId == o.stableId {
      SameId(baseline, p, o);
    }
    if BestFor(ratio, baseline, o, n) {
      assert RankLe(Score(ratio, o, n), Score(ratio, p, n));
      assert RankLe(least, Score(ratio, o, n));
    }
  }

  /** The loop's test means what `Matched` says. */
  lemma AcceptsExact(ratio: Ratio, baseline: seq<Located>, current: seq<Located>, o: Located, n: Located)
    requires IsRatio(ratio) && DistinctIds(baseline) && DistinctIds(current)
    requires o in baseline && n in current && IsCandidate(ratio, o, n)
    ensures Matched(ratio, baseline, current, o, n)
       <==> (Accepts(Candidates(ratio, baseline, current), o.stableId)
             && Bucket(OldId, Candidates(ratio, baseline, current), o.stableId) == [Score(ratio, o, n)])
  {
    var candidates := Candidates(ratio, baseline, current);
    CandidatesNoDup(ratio, baseline, current);
    OnlyCandidate(ratio, baseline, current, o, n);
    SingletonBucket(candidates, o.stableId, Score(ratio, o, n));
    BestRival(ratio, baseline, current, o, n);
    if Bucket(OldId, candidates, o.stableId) == [Score(ratio, o, n)] {
      SortSingleton(Score(ratio, o, n));
    }
  }

  lemma SortSingleton(c: Candidate)
    ensures Sort(RankLe, [c]) == [c]
  {
    assert [c][..0] == [];
  }

  /** An accepted old id leads to one old and one new finding. */
  lemma AcceptedPair(ratio: Ratio, baseline: seq<Located>, current: seq<Located>, id: string)
      returns (o: Located, n: Located)
    requires IsRatio(ratio) && DistinctIds(baseline) && DistinctIds(current)
    requires Accepts(Candidates(ratio, baseline, current), id)
    ensures o.stableId == id && Matched(ratio, baseline, current, o, n)
    ensures Sort(RankLe, Bucket(OldId, Candidates(ratio, baseline, current), id)) == [Score(ratio, o, n)]
  {
    var candidates := Candidates(ratio, baseline, current);
    AcceptedIsAlone(ratio, baseline, current, id);
    var own := Bucket(OldId, candidates, id);
    BucketMembers(OldId, candidates, id);
    assert own[0] in own;
    CandidateMember(ratio, baseline, current, own[0]);
    o, n :| Scored(ratio, baseline, current, o, n, own[0]);
    assert own == [Score(ratio, o, n)];
    SortSingleton(Score(ratio, o, n));
    AcceptsExact(ratio, baseline, current, o, n);
  }

  // ----- the algorithm

  ghost predicate AcceptedAmong(candidates: seq<Candidate>, done: seq<string>, matches: map<string, (string, real)>) {
    forall id :: id in matches <==> id in done && Accepts(candidates, id)
  }

  /** The best candidate of an old id that has one. */
  ghost predicate IsBest(candidates: seq<Candidate>, id: string, match_: (string, real)) {
    Bucket(OldId, candidates, id) != []
    && var best := Sort(RankLe, Bucket(OldId, candidates, id))[0]; match_ == (best.newId, best.score)
  }

  ghost predicate BestMatches(candidates: seq<Candidate>, matches: map<string, (string, real)>) {
    forall id :: id in matches ==> IsBest(candidates, id, matches[id])
  }

  ghost predicate UsedBy(matches: map<string, (string, real)>, used: set<string>) {
    forall n :: n in used ==> exists id :: id in matches && matches[id].0 == n
  }

  ghost predicate AcceptedSoFar(candidates: seq<Candidate>, done: seq<string>,
                                matches: map<string, (string, real)>, used: set<string>) {
    AcceptedAmong(candidates, done, matches) && BestMatches(candidates, matches) && UsedBy(matches, used)
  }

  /** The mutual-best test already keeps a new id from being used twice. */
  lemma GuardIsImplied(candidates: seq<Candidate>, done: seq<string>, matches: map<string, (string, real)>,
                       used: set<string>, id: string)
    requires AcceptedSoFar(candidates, done, matches, used) && id !in done && Accepts(candidates, id)
    ensures Sort(RankLe, Bucket(OldId, candidates, id))[0].newId !in used
  {
    forall other | other in matches
      ensures matches[other].0 != Sort(RankLe, Bucket(OldId, candidates, id))[0].newId
    {
      assert Accepts(candidates, other);
    }
  }

  method CollectCandidates(ratio: Ratio, baseline: seq<Located>, current: seq<Located>)
      returns (candidates: seq<Candidate>)
    ensures candidates == Candidates(ratio, baseline, current)
  {
    candidates := [];
    for i := 0 to |baseline|
      invariant candidates == Candidates(ratio, baseline[..i], current)
    {
      var o := baseline[i];
      ghost var before := candidates;
      for j := 0 to |current|
        invariant candidates == before + ForOld(ratio, o, current[..j])
      {
        assert current[..j + 1][..j] == current[..j];
        if IsCandidate(ratio, o, current[j]) {
          candidates := candidates + [Score(ratio, o, current[j])];
        }
      }
      TakeAll(current);
      assert baseline[..i + 1][..i] == baseline[..i];
    }
    TakeAll(baseline);
  }

  lemma OldIdGrouped(candidates: seq<Candidate>, oldIds: seq<string>, byOld: map<string, seq<Candidate>>, id: string)
    requires Grouped(OldId, candidates, oldIds, byOld) && id in oldIds
    ensures id in byOld && byOld[id] == Bucket(OldId, candidates, id) != []
    ensures Sort(RankLe, byOld[id])[0] in candidates
  {
    KeysMembers(OldId, candidates);
    BucketMembers(OldId, candidates, id);
    assert Sort(RankLe, byOld[id])[0] in Sort(RankLe, byOld[id]);
  }

  lemma AmongStep(candidates: seq<Candidate>, done: seq<string>, id: string, matches: map<string, (string, real)>, match_: (string, real))
    requires AcceptedAmong(candidates, done, matches) && Accepts(candidates, id)
    ensures AcceptedAmong(candidates, done + [id], matches[id := match_])
  {
  }

  lemma UsedStep(matches: map<string, (string, real)>, used: set<string>, id: string, match_: (string, real))
    requires UsedBy(matches, used) && id !in matches
    ensures UsedBy(matches[id := match_], used + {match_.0})
  {
    var next := matches[id := match_];
    forall n | n in used + {match_.0} ensures exists other :: other in next && next[other].0 == n {
      if n in used {
        var other :| other in matches && matches[other].0 == n;
        assert next[other].0 == n;
      } else {
        assert next[id].0 == n;
      }
    }
  }

  /** What accepting the next old id does to the result so far. */
  lemma AcceptStep(candidates: seq<Candidate>, done: seq<string>, id: string, matches: map<string, (string, real)>, used: set<string>)
    requires AcceptedSoFar(candidates, done, matches, used) && id !in done && Accepts(candidates, id)
    ensures var best := Sort(RankLe, Bucket(OldId, candidates, id))[0];
            best.newId !in used
            && AcceptedSoFar(candidates, done + [id], matches[id := (best.newId, best.score)], used + {best.newId})
  {
    GuardIsImplied(candidates, done, matches, used, id);
    var best := Sort(RankLe, Bucket(OldId, candidates, id))[0];
    AmongStep(candidates, done, id, matches, (best.newId, best.score));
    UsedStep(matches, used, id, (best.newId, best.score));
    assert IsBest(candidates, id, (best.newId, best.score));
  }

  /** What passing it by does. */
  lemma PassStep(candidates: seq<Candidate>, done: seq<string>, id: string, matches: map<string, (string, real)>, used: set<string>)
    requires AcceptedSoFar(candidates, done, matches, used) && !Accepts(candidates, id)
    ensures AcceptedSoFar(candidates, done + [id], matches, used)
  {
    assert forall other :: other in done + [id] <==> other in done || other == id;
  }

  method StrongMatches(ratio: Ratio, baseline: seq<Located>, current: seq<Located>)
      returns (matches: map<string, (string, real)>)
    requires IsRatio(ratio) && DistinctIds(baseline) && DistinctIds(current)
    ensures IsMatching(ratio, baseline, current, matches)
  {
    var candidates := CollectCandidates(ratio, baseline, current);
    var oldIds, byOld := GroupBy(OldId, candidates);
    var newIds, byNew := GroupBy(NewId, candidates);
    var order := SortStrings(oldIds);
    KeysMembers(OldId, candidates);
    PermutationNoDup(oldIds, order);
    PermutationMembers(oldIds, order);
    matches := map[];
    var used: set<string> := {};
    for i := 0 to |order|
      invariant AcceptedSoFar(candidates, order[..i], matches, used)
    {
      var id := order[i];
      assert id in order;
      OldIdGrouped(candidates, oldIds, byOld, id);
      var ranked := Sort(RankLe, byOld[id]);
      var best := ranked[0];
      NewIdGrouped(candidates, newIds, byNew, best);
      var margin := if |ranked| > 1 then best.score - ranked[1].score else 1.0;
      var reverse := Least(RankLe, byNew[best.newId]);
      assert id !in order[..i];
      assert Accepts(candidates, id) <==> margin >= 0.15 && reverse.oldId == id;
      TakeNext(order, i);
      if Accepts(candidates, id) {
        AcceptStep(candidates, order[..i], id, matches, used);
      } else {
        PassStep(candidates, order[..i], id, matches, used);
      }
      if margin >= 0.15 && reverse.oldId == id && best.newId !in used {
        matches := matches[id := (best.newId, best.score)];
        used := used + {best.newId};
      }
    }
    TakeAll(order);
    AcceptedIsMatching(ratio, baseline, current, order, matches, used);
  }

  lemma NewIdGrouped(candidates: seq<Candidate>, newIds: seq<string>, byNew: map<string, seq<Candidate>>, best: Candidate)
    requires Grouped(NewId, candidates, newIds, byNew) && best in candidates
    ensures best.newId in byNew && byNew[best.newId] == Bucket(NewId, candidates, best.newId) != []
  {
    KeysMembers(NewId, candidates);
    BucketMembers(NewId, candidates, best.newId);
    assert Occupied(NewId, candidates, best.newId);
  }

  lemma AcceptedIsMatching(ratio: Ratio, baseline: seq<Located>, current: seq<Located>, order: seq<string>,
                           matches: map<string, (string, real)>, used: set<string>)
    requires IsRatio(ratio) && DistinctIds(baseline) && DistinctIds(current)
    requires forall id :: id in order <==> Occupied(OldId, Candidates(ratio, baseline, current), id)
    requires AcceptedSoFar(Candidates(ratio, baseline, current), order, matches, used)
    ensures IsMatching(ratio, baseline, current, matches)
  {
    var candidates := Candidates(ratio, baseline, current);
    forall o, n | Matched(ratio, baseline, current, o, n)
      ensures o.stableId in matches && matches[o.stableId] == (n.stableId, ratio(o.anchor, n.anchor))
    {
      AcceptsExact(ratio, baseline, current, o, n);
      OnlyCandidate(ratio, baseline, current, o, n);
      assert Occupied(OldId, candidates, o.stableId);
      SortSingleton(Score(ratio, o, n));
    }
    forall id | id in matches ensures MatchedTo(ratio, baseline, current, id, matches[id]) {
      var o, n := AcceptedPair(ratio, baseline, current, id);
    }
  }

  // ----- what a matching promises

  /** No new finding is the continuation of two old ones. */
  lemma MatchingInjective(ratio: Ratio, baseline: seq<Located>, current: seq<Located>,
                          matches: map<string, (string, real)>, a: string, b: string)
    requires DistinctIds(baseline) && DistinctIds(current)
    requires IsMatching(ratio, baseline, current, matches)
    requires a in matches && b in matches && matches[a].0 == matches[b].0
    ensures a == b
  {
    assert MatchedTo(ratio, baseline, current, a, matches[a]) && MatchedTo(ratio, baseline, current, b, matches[b]);
    var o, n :| Matched(ratio, baseline, current, o, n)
                && o.stableId == a && matches[a] == (n.stableId, ratio(o.anchor, n.anchor));
    var p, m :| Matched(ratio, baseline, current, p, m)
                && p.stableId == b && matches[b] == (m.stableId, ratio(p.anchor, m.anchor));
    SameId(current, n, m);
    RankTotalOrder();
    assert RankLe(Score(ratio, o, n), Score(ratio, p, n)) && RankLe(Score(ratio, p, n), Score(ratio, o, n));
  }

  /** The matching does not depend on the order of either run. */
  lemma MatchingOrderIndependent(ratio: Ratio, baseline: seq<Located>, current: seq<Located>,
                                 baseline': seq<Located>, current': seq<Located>,
                                 matches: map<string, (string, real)>, matches': map<string, (string, real)>)
    requires multiset(baseline) == multiset(baseline') && multiset(current) == multiset(current')
    requires IsMatching(ratio, baseline, current, matches)
    requires IsMatching(ratio, baseline', current', matches')
    ensures matches == matches'
  {
    PermutationMembers(baseline, baseline');
    PermutationMembers(current, current');
    forall o, n ensures Matched(ratio, baseline, current, o, n) <==> Matched(ratio, baseline', current', o, n) {
    }
    forall id, v ensures MatchedTo(ratio, baseline, current, id, v) <==> MatchedTo(ratio, baseline', current', id, v) {
    }
    forall id ensures id in matches <==> id in matches' {
      assert id in matches ==> MatchedTo(ratio, baseline, current, id, matches[id]);
      assert id in matches' ==> MatchedTo(ratio, baseline', current', id, matches'[id]);
    }
    forall id | id in matches ensures matches[id] == matches'[id] {
      assert MatchedTo(ratio, baseline, current, id, matches[id]);
    }
  }
}
