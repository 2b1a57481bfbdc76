/** The scheduler: reconcile the targets, settle every open request, reuse a sibling's evidence or
    dispatch. A scan may be interrupted at every call that has an effect. */
module Scan {
  import opened Sequences
  import opened Text

  datatype Row = Row(
    id: string, head: string, base: Option<string>, key: Option<string>, status: string,
    request: Option<nat>, run: Option<nat>, attempt: nat, manual: bool, report: bool)

  /** A target as discovery finds it. */
  datatype Found = Found(id: string, head: string, base: Option<string>)

  datatype Run = Run(id: nat, attempt: nat, completed: bool)

  /** What a scan observes: listed runs by id and by the request in their title, published runs,
      runs with exactly one usable handoff artifact, and the analysis key of a revision. */
  datatype Observation = Observation(
    byId: map<nat, Run>, byRequest: map<nat, Run>, retained: set<(nat, nat)>, usable: set<(nat, nat)>, keyOf: string -> string)

  // ----- history

  datatype Event =
    | Saved(rows: seq<Row>)
    | Dispatch(id: string, key: string, request: nat)
    | Refreshed(id: string)
    | EvidenceLost(id: string, run: Run)
    | Rekeyed(id: string, key: string)
    | Dropped(id: string)

  /** Does the event end the request of the target? */
  predicate Clears(e: Event, id: string) {
    (e.Refreshed? || e.EvidenceLost? || e.Rekeyed? || e.Dropped?) && e.id == id
  }

  /** The target's last dispatched request, unless something ended it since. */
  function OpenRequest(h: seq<Event>, id: string): Option<nat> {
    if h == [] then None
    else
      var e := h[|h| - 1];
      if Clears(e, id) then None
      else if e.Dispatch? && e.id == id then Some(e.request)
      else OpenRequest(h[..|h| - 1], id)
  }

  // ----- rows

  function Ids(rows: seq<Row>): (r: seq<string>)
    ensures |r| == |rows| && forall i :: 0 <= i < |rows| ==> r[i] == rows[i].id
  {
    seq(|rows|, i requires 0 <= i < |rows| => rows[i].id)
  }

  ghost predicate HasRequest(rows: seq<Row>, id: string, request: nat) {
    exists i :: 0 <= i < |rows| && rows[i].id == id && rows[i].request == Some(request)
  }

  /** Every open request is recorded in its row. */
  ghost predicate Held(h: seq<Event>, rows: seq<Row>) {
    forall id :: OpenRequest(h, id).Some? ==> HasRequest(rows, id, OpenRequest(h, id).value)
  }

  /** A request was saved right before it was dispatched, and nothing was open for the target. */
  ghost predicate SafeAt(h: seq<Event>, j: nat)
    requires j < |h|
  {
    h[j].Dispatch? ==>
      && j > 0 && h[j - 1].Saved? && HasRequest(h[j - 1].rows, h[j].id, h[j].request)
      && OpenRequest(h[..j], h[j].id).None?
  }

  ghost predicate Safe(h: seq<Event>) {
    forall j: nat :: j < |h| ==> SafeAt(h, j)
  }

  ghost predicate IssuedBelow(h: seq<Event>, issued: nat) {
    forall j :: 0 <= j < |h| && h[j].Dispatch? ==> h[j].request < issued
  }

  ghost predicate OnceEach(h: seq<Event>) {
    forall i, j :: 0 <= i < j < |h| && h[i].Dispatch? && h[j].Dispatch? ==> h[i].request != h[j].request
  }

  // ----- reconciling with discovery

  function FormerOf(rows: seq<Row>, id: string): Option<Row> {
    if rows == [] then None
    else if rows[|rows| - 1].id == id then Some(rows[|rows| - 1])
    else FormerOf(rows[..|rows| - 1], id)
  }

  function ReconcileRow(former: Option<Row>, f: Found): Row {
    match former
    case None => Row(f.id, f.head, f.base, None, "queued", None, None, 0, false, false)
    case Some(row) =>
      if row.head != f.head || row.base != f.base then
        row.(id := f.id, head := f.head, base := f.base, status := if row.report then "stale" else "queued", key := None, run := None)
      else row.(id := f.id)
  }

  function Reconcile(rows: seq<Row>, discovered: seq<Found>): (r: seq<Row>)
    ensures |r| == |discovered|
    ensures forall i :: 0 <= i < |r| ==> r[i] == ReconcileRow(FormerOf(rows, discovered[i].id), discovered[i])
  {
    seq(|discovered|, i requires 0 <= i < |discovered| => ReconcileRow(FormerOf(rows, discovered[i].id), discovered[i]))
  }

  function FoundIds(discovered: seq<Found>): (r: seq<string>)
    ensures |r| == |discovered| && forall i :: 0 <= i < |r| ==> r[i] == discovered[i].id
  {
    seq(|discovered|, i requires 0 <= i < |discovered| => discovered[i].id)
  }

  function DropEvents(rows: seq<Row>, discovered: seq<Found>): seq<Event> {
    if rows == [] then []
    else
      DropEvents(rows[..|rows| - 1], discovered)
      + if rows[|rows| - 1].id in FoundIds(discovered) then [] else [Dropped(rows[|rows| - 1].id)]
  }

  // ----- settling one row

  /** Forget a request whose analysis key is out of date. */
  function Rekey(row: Row, key: string): (Row, seq<Event>) {
    if row.key == Some(key) then (row, [])
    else (row.(key := Some(key), status := "queued", request := None, run := None), [Rekeyed(row.id, key)])
  }

  function RunOf(row: Row, obs: Observation): Option<Run> {
    if row.run.Some? && row.run.value in obs.byId then Some(obs.byId[row.run.value])
    else if row.request.Some? && row.request.value in obs.byRequest then Some(obs.byRequest[row.request.value])
    else None
  }

  /** A completed, unpublished run without its one usable handoff artifact. */
  predicate Lost(run: Run, obs: Observation) {
    run.completed && (run.id, run.attempt) !in obs.retained && (run.id, run.attempt) !in obs.usable
  }

  /** Follow the row's request, if it has one: its run's status, or the loss of its evidence. */
  function Follow(row: Row, obs: Observation): (Row, seq<Event>) {
    if row.request.None? then (row, [])
    else
      match RunOf(row, obs)
      case None => (row, [])
      case Some(run) =>
        if Lost(run, obs) then (row.(request := None, run := None, attempt := 0, status := "queued"), [EvidenceLost(row.id, run)])
        else (row.(run := Some(run.id), attempt := run.attempt, status := if run.completed then "collected" else "scanning"), [])
  }

  /** Both steps; the row still has a request exactly when it must not be dispatched. */
  function Settle(row: Row, obs: Observation): (Row, seq<Event>) {
    var a := Rekey(row, obs.keyOf(row.head));
    var b := Follow(a.0, obs);
    (b.0, a.1 + b.1)
  }

  /** The run whose evidence settling found lost. */
  function LostRun(row: Row, obs: Observation): set<nat> {
    var a := Rekey(row, obs.keyOf(row.head)).0;
    if a.request.Some? && RunOf(a, obs).Some? && Lost(RunOf(a, obs).value, obs) then {RunOf(a, obs).value.id} else {}
  }

  predicate Sibling(x: Row, row: Row, key: string, expired: set<nat>) {
    x.id != row.id && x.key == Some(key) && x.status == "collected" && (x.run.None? || x.run.value !in expired)
  }

  function FindSibling(rows: seq<Row>, row: Row, key: string, expired: set<nat>): Option<Row> {
    if rows == [] then None
    else if Sibling(rows[0], row, key, expired) then Some(rows[0])
    else FindSibling(rows[1..], row, key, expired)
  }

  function Reusable(rows: seq<Row>, row: Row, key: string, expired: set<nat>): Option<Row> {
    if row.manual then None else FindSibling(rows, row, key, expired)
  }

  predicate NotManual(row: Row) { !row.manual }
  predicate IsManual(row: Row) { row.manual }

  /** Explicit refreshes first, otherwise in the same order. */
  function ManualFirst(rows: seq<Row>): seq<Row> {
    Filter(IsManual, rows) + Filter(NotManual, rows)
  }

  function Refresh(rows: seq<Row>, id: string): (r: seq<Row>)
    ensures |r| == |rows|
    ensures forall i :: 0 <= i < |r| ==> r[i] == if rows[i].id == id then rows[i].(status := "queued", manual := true, request := None, run := None) else rows[i]
  {
    seq(|rows|, i requires 0 <= i < |rows| =>
      if rows[i].id == id then rows[i].(status := "queued", manual := true, request := None, run := None) else rows[i])
  }

  // ----- what events do to open requests

  lemma OpenSnoc(h: seq<Event>, e: Event, id: string)
    ensures OpenRequest(h + [e], id) == if Clears(e, id) then None
                                        else if e.Dispatch? && e.id == id then Some(e.request) else OpenRequest(h, id)
  {
    assert (h + [e])[..|h|] == h;
  }

  ghost predicate Quiet(events: seq<Event>) {
    forall i :: 0 <= i < |events| ==> !events[i].Dispatch?
  }

  ghost predicate SomeClears(events: seq<Event>, id: string) {
    exists i :: 0 <= i < |events| && Clears(events[i], id)
  }

  /** Events without a dispatch only close requests, and exactly those they clear. */
  lemma {:induction false} OpenAfter(h: seq<Event>, events: seq<Event>, id: string)
    requires Quiet(events)
    ensures OpenRequest(h + events, id) == if SomeClears(events, id) then None else OpenRequest(h, id)
  {
    if events == [] {
      assert h + events == h;
    } else {
      var front, e := events[..|events| - 1], events[|events| - 1];
      OpenAfter(h, front, id);
      assert h + events == (h + front) + [e];
      OpenSnoc(h + front, e, id);
      if SomeClears(front, id) {
        var i :| 0 <= i < |front| && Clears(front[i], id);
        assert Clears(events[i], id);
      }
      assert SomeClears(events, id) <==> SomeClears(front, id) || Clears(e, id) by {
        if SomeClears(events, id) && !Clears(e, id) {
          var i :| 0 <= i < |events| && Clears(events[i], id);
          assert Clears(front[i], id);
        }
      }
    }
  }

  lemma {:induction false} QuietSafe(h: seq<Event>, events: seq<Event>, issued: nat)
    requires Safe(h) && IssuedBelow(h, issued) && OnceEach(h) && Quiet(events)
    ensures Safe(h + events) && IssuedBelow(h + events, issued) && OnceEach(h + events)
  {
    forall j: nat | j < |h + events| ensures SafeAt(h + events, j) {
      if j < |h| {
        assert SafeAt(h, j);
        assert (h + events)[..j] == h[..j];
      }
    }
  }

  lemma DispatchSafe(h: seq<Event>, rows: seq<Row>, id: string, key: string, issued: nat)
    requires Safe(h) && IssuedBelow(h, issued) && OnceEach(h)
    requires OpenRequest(h, id).None? && HasRequest(rows, id, issued)
    ensures var h' := h + [Saved(rows)] + [Dispatch(id, key, issued)];
            Safe(h') && IssuedBelow(h', issued + 1) && OnceEach(h')
  {
    var saved := h + [Saved(rows)];
    QuietSafe(h, [Saved(rows)], issued);
    OpenSnoc(h, Saved(rows), id);
    var h' := saved + [Dispatch(id, key, issued)];
    forall j: nat | j < |h'| ensures SafeAt(h', j) {
      if j < |saved| {
        assert SafeAt(saved, j);
        assert h'[..j] == saved[..j];
      } else {
        assert h'[..j] == saved;
      }
    }
  }

  // ----- rows that change one at a time

  ghost predicate Distinct(rows: seq<Row>) {
    NoDup(Ids(rows))
  }

  lemma SameRow(rows: seq<Row>, i: nat, j: nat)
    requires Distinct(rows) && i < |rows| && j < |rows| && rows[i].id == rows[j].id
    ensures i == j
  {
    var ids := Ids(rows);
    assert ids[i] == ids[j];
  }

  lemma DistinctUpdate(rows: seq<Row>, i: nat, row: Row)
    requires Distinct(rows) && i < |rows| && row.id == rows[i].id
    ensures Distinct(rows[i := row])
  {
    assert Ids(rows[i := row]) == Ids(rows);
  }

  /** A row that keeps its request, or whose request is cleared by the events, keeps all open requests recorded. */
  lemma HeldUpdate(h: seq<Event>, rows: seq<Row>, i: nat, row: Row, events: seq<Event>)
    requires Held(h, rows) && Distinct(rows) && i < |rows| && row.id == rows[i].id && Quiet(events)
    requires row.request == rows[i].request || SomeClears(events, row.id)
    ensures Held(h + events, rows[i := row])
  {
    forall id | OpenRequest(h + events, id).Some? ensures HasRequest(rows[i := row], id, OpenRequest(h + events, id).value) {
      OpenAfter(h, events, id);
      var k :| 0 <= k < |rows| && rows[k].id == id && rows[k].request == Some(OpenRequest(h, id).value);
      assert rows[i := row][k].id == id;
    }
  }

  lemma HeldMore(h: seq<Event>, rows: seq<Row>, events: seq<Event>)
    requires Held(h, rows) && Quiet(events)
    ensures Held(h + events, rows)
  {
    forall id | OpenRequest(h + events, id).Some? ensures HasRequest(rows, id, OpenRequest(h + events, id).value) {
      OpenAfter(h, events, id);
    }
  }

  lemma HeldDispatched(h: seq<Event>, rows: seq<Row>, i: nat, row: Row, key: string, request: nat)
    requires Held(h, rows) && Distinct(rows) && i < |rows| && row.id == rows[i].id && row.request == Some(request)
    ensures Held(h + [Saved(rows[i := row])] + [Dispatch(row.id, key, request)], rows[i := row])
  {
    var rows' := rows[i := row];
    var saved := h + [Saved(rows')];
    forall id | OpenRequest(saved + [Dispatch(row.id, key, request)], id).Some?
      ensures HasRequest(rows', id, OpenRequest(saved + [Dispatch(row.id, key, request)], id).value)
    {
      OpenSnoc(h, Saved(rows'), id);
      OpenSnoc(saved, Dispatch(row.id, key, request), id);
      assert rows'[i] == row;
      if id != row.id {
        var k :| 0 <= k < |rows| && rows[k].id == id && rows[k].request == Some(OpenRequest(h, id).value);
        assert rows'[k] == rows[k];
      }
    }
  }

  lemma SettleFacts(row: Row, obs: Observation)
    ensures var s := Settle(row, obs);
            && s.0.id == row.id && s.0.head == row.head && s.0.key == Some(obs.keyOf(row.head)) && s.0.manual == row.manual
            && Quiet(s.1) && (s.0.request == row.request || SomeClears(s.1, row.id))
            && (s.0.request.Some? ==> s.0.request == row.request && s.1 == [])
  {
    var a := Rekey(row, obs.keyOf(row.head));
    var b := Follow(a.0, obs);
    if a.1 != [] { assert Clears((a.1 + b.1)[0], row.id); }
    if b.1 != [] { assert Clears((a.1 + b.1)[|a.1|], row.id); }
  }

  // ----- reconciling keeps the records

  lemma {:induction false} FormerFound(rows: seq<Row>, i: nat)
    requires Distinct(rows) && i < |rows|
    ensures FormerOf(rows, rows[i].id) == Some(rows[i])
  {
    var front, n := rows[..|rows| - 1], |rows| - 1;
    if rows[n].id == rows[i].id {
      SameRow(rows, i, n);
    } else {
      assert Ids(front) == Ids(rows)[..n];
      FormerFound(front, i);
    }
  }

  lemma {:induction false} DropFacts(rows: seq<Row>, discovered: seq<Found>)
    ensures Quiet(DropEvents(rows, discovered))
    ensures forall i :: 0 <= i < |rows| && rows[i].id !in FoundIds(discovered) ==> SomeClears(DropEvents(rows, discovered), rows[i].id)
  {
    if rows != [] {
      var front, n := rows[..|rows| - 1], |rows| - 1;
      DropFacts(front, discovered);
      var before, all := DropEvents(front, discovered), DropEvents(rows, discovered);
      forall i | 0 <= i < |rows| && rows[i].id !in FoundIds(discovered) ensures SomeClears(all, rows[i].id) {
        if i < n {
          assert front[i] == rows[i];
          var k :| 0 <= k < |before| && Clears(before[k], rows[i].id);
          assert Clears(all[k], rows[i].id);
        } else {
          assert Clears(all[|all| - 1], rows[i].id);
        }
      }
    }
  }

  lemma HeldReconciled(h: seq<Event>, rows: seq<Row>, discovered: seq<Found>)
    requires Held(h, rows) && Distinct(rows) && NoDup(FoundIds(discovered))
    ensures Held(h + DropEvents(rows, discovered), Reconcile(rows, discovered))
    ensures Distinct(Reconcile(rows, discovered)) && Quiet(DropEvents(rows, discovered))
  {
    var next, events := Reconcile(rows, discovered), DropEvents(rows, discovered);
    DropFacts(rows, discovered);
    assert Ids(next) == FoundIds(discovered);
    forall id | OpenRequest(h + events, id).Some? ensures HasRequest(next, id, OpenRequest(h + events, id).value) {
      OpenAfter(h, events, id);
      var k :| 0 <= k < |rows| && rows[k].id == id && rows[k].request == Some(OpenRequest(h, id).value);
      assert id in FoundIds(discovered);
      var j :| 0 <= j < |discovered| && FoundIds(discovered)[j] == id;
      FormerFound(rows, k);
      assert next[j].request == rows[k].request;
    }
  }

  lemma HeldRefreshed(h: seq<Event>, rows: seq<Row>, id: string)
    requires Held(h, rows) && Distinct(rows)
    ensures Held(h + [Refreshed(id)], Refresh(rows, id)) && Distinct(Refresh(rows, id))
  {
    var next := Refresh(rows, id);
    assert Ids(next) == Ids(rows);
    forall other | OpenRequest(h + [Refreshed(id)], other).Some? ensures HasRequest(next, other, OpenRequest(h + [Refreshed(id)], other).value) {
      OpenSnoc(h, Refreshed(id), other);
      var k :| 0 <= k < |rows| && rows[k].id == other && rows[k].request == Some(OpenRequest(h, other).value);
      assert next[k].request == rows[k].request && next[k].id == other;
    }
  }

  lemma HeldPermuted(h: seq<Event>, rows: seq<Row>, next: seq<Row>)
    requires Held(h, rows) && forall row :: row in rows <==> row in next
    ensures Held(h, next)
  {
    forall id | OpenRequest(h, id).Some? ensures HasRequest(next, id, OpenRequest(h, id).value) {
      var k :| 0 <= k < |rows| && rows[k].id == id && rows[k].request == Some(OpenRequest(h, id).value);
      assert rows[k] in next;
      var j :| 0 <= j < |next| && next[j] == rows[k];
    }
  }

  lemma IdsDiffer(rows: seq<Row>, a: Row, b: Row)
    requires Distinct(rows) && a in rows && b in rows && a != b
    ensures a.id != b.id
  {
    var k :| 0 <= k < |rows| && rows[k] == a;
    var l :| 0 <= l < |rows| && rows[l] == b;
    assert Ids(rows)[k] == a.id && Ids(rows)[l] == b.id;
  }

  lemma SortedMembers(rows: seq<Row>)
    requires NoDup(rows)
    ensures NoDup(ManualFirst(rows)) && |ManualFirst(rows)| == |rows|
    ensures forall row :: row in ManualFirst(rows) <==> row in rows
  {
    FilterMembers(IsManual, rows);
    FilterMembers(NotManual, rows);
    FilterNoDup(IsManual, rows);
    FilterNoDup(NotManual, rows);
    NoDupAppend(Filter(IsManual, rows), Filter(NotManual, rows));
    SameMembersSameMultiset(rows, ManualFirst(rows));
  }

  lemma DistinctMembers(rows: seq<Row>, next: seq<Row>)
    requires Distinct(rows) && NoDup(next) && forall row :: row in next ==> row in rows
    ensures Distinct(next)
  {
    forall i, j | 0 <= i < j < |next| ensures Ids(next)[i] != Ids(next)[j] {
      assert next[i] in next && next[j] in next && next[i] != next[j];
      IdsDiffer(rows, next[i], next[j]);
    }
  }

  lemma SortedFacts(h: seq<Event>, rows: seq<Row>)
    requires Held(h, rows) && Distinct(rows)
    ensures Held(h, ManualFirst(rows)) && Distinct(ManualFirst(rows))
    ensures forall row :: row in ManualFirst(rows) <==> row in rows
    ensures |ManualFirst(rows)| == |rows|
  {
    RowsNoDup(rows);
    SortedMembers(rows);
    HeldPermuted(h, rows, ManualFirst(rows));
    DistinctMembers(rows, ManualFirst(rows));
  }

  lemma RowsNoDup(rows: seq<Row>)
    requires Distinct(rows)
    ensures NoDup(rows)
  {
    forall i, j | 0 <= i < j < |rows| ensures rows[i] != rows[j] {
      assert Ids(rows)[i] != Ids(rows)[j];
    }
  }

  lemma HeldNotOpen(h: seq<Event>, rows: seq<Row>, i: nat)
    requires Held(h, rows) && Distinct(rows) && i < |rows| && rows[i].request.None?
    ensures OpenRequest(h, rows[i].id).None?
  {
    if OpenRequest(h, rows[i].id).Some? {
      var k :| 0 <= k < |rows| && rows[k].id == rows[i].id && rows[k].request == Some(OpenRequest(h, rows[i].id).value);
      SameRow(rows, i, k);
      assert false;
    }
  }

  /** The same targets, in any order. */
  ghost predicate SameIds(rows: seq<Row>, ids: seq<string>) {
    forall id :: id in Ids(rows) <==> id in ids
  }

  lemma SameIdsUpdate(rows: seq<Row>, ids: seq<string>, i: nat, row: Row)
    requires SameIds(rows, ids) && i < |rows| && row.id == rows[i].id
    ensures SameIds(rows[i := row], ids)
  {
    assert Ids(rows[i := row]) == Ids(rows);
  }

  lemma SameIdsSorted(rows: seq<Row>, ids: seq<string>)
    requires Ids(rows) == ids && forall row :: row in ManualFirst(rows) <==> row in rows
    ensures SameIds(ManualFirst(rows), ids)
  {
    var next := ManualFirst(rows);
    forall id ensures id in Ids(next) <==> id in ids {
      if id in Ids(next) {
        var k :| 0 <= k < |next| && Ids(next)[k] == id;
        assert next[k] in rows;
        var j :| 0 <= j < |rows| && rows[j] == next[k];
        assert Ids(rows)[j] == id;
      }
      if id in ids {
        var k :| 0 <= k < |rows| && Ids(rows)[k] == id;
        assert rows[k] in next;
        var j :| 0 <= j < |next| && next[j] == rows[k];
        assert Ids(next)[j] == id;
      }
    }
  }

  /** The row's key is current, and it has a request or reused evidence. */
  predicate Attended(row: Row, obs: Observation) {
    row.key == Some(obs.keyOf(row.head)) && (row.request.Some? || row.status == "collected")
  }

  // ----- what causes an event

  /** One scan: the state it started from, what it was given, and the events it recorded. */
  datatype Scanned = Scanned(before: seq<Row>, obs: Observation, discovered: seq<Found>, refresh: Option<string>, events: seq<Event>)

  /** The discovered target is new, or its revisions or its analysis key are not those of the saved row. */
  predicate Changed(s: Scanned, f: Found) {
    match FormerOf(s.before, f.id)
    case None => true
    case Some(row) => row.head != f.head || row.base != f.base || row.key != Some(s.obs.keyOf(f.head))
  }

  /** The saved row's run is listed, complete and unpublished, and its handoff artifact is missing or expired. */
  predicate LostFor(s: Scanned, id: string, run: Run) {
    match FormerOf(s.before, id)
    case None => false
    case Some(row) => row.request.Some? && RunOf(row, s.obs) == Some(run) && Lost(run, s.obs)
  }

  /** The target was refreshed by hand in this scan. */
  predicate RefreshedIn(s: Scanned, id: string) {
    s.refresh == Some(id)
  }

  /** The run of the target's saved request was seen without its evidence in this scan. */
  ghost predicate LostIn(s: Scanned, id: string) {
    exists run :: LostFor(s, id, run)
  }

  /** The target was not discovered, or what was discovered differs from what was saved, in this scan. */
  ghost predicate ReplacedIn(s: Scanned, id: string) {
    id !in FoundIds(s.discovered) || exists f :: f in s.discovered && f.id == id && Changed(s, f)
  }

  /** The scan gives no cause to end the target's request. */
  ghost predicate Uncaused(s: Scanned, id: string) {
    !RefreshedIn(s, id) && !LostIn(s, id) && !ReplacedIn(s, id)
  }

  /** The rows hold every saved request that the scan gives no cause to end. */
  ghost predicate Keeps(s: Scanned, rows: seq<Row>) {
    forall id, request :: HasRequest(s.before, id, request) && Uncaused(s, id) ==> HasRequest(rows, id, request)
  }

  /** No saved request stands in the way of another dispatch. */
  ghost predicate Free(s: Scanned, id: string) {
    forall request :: HasRequest(s.before, id, request) ==> !Uncaused(s, id)
  }

  /** The event follows from what the scan started from and was given. */
  ghost predicate Caused(s: Scanned, e: Event) {
    match e
    case Saved(rows) => Keeps(s, rows)
    case Dispatch(id, key, _) => Free(s, id) && exists f :: f in s.discovered && f.id == id && key == s.obs.keyOf(f.head)
    case Refreshed(id) => s.refresh == Some(id)
    case EvidenceLost(id, run) => LostFor(s, id, run)
    case Rekeyed(id, key) => exists f :: f in s.discovered && f.id == id && key == s.obs.keyOf(f.head) && Changed(s, f)
    case Dropped(id) => id in Ids(s.before) && id !in FoundIds(s.discovered)
  }

  ghost predicate AllCaused(s: Scanned, events: seq<Event>) {
    forall i :: 0 <= i < |events| ==> Caused(s, events[i])
  }

  /** Nothing ends a target's request after it was dispatched. */
  ghost predicate DispatchLast(events: seq<Event>) {
    forall a, b :: 0 <= a < b < |events| && events[a].Dispatch? ==> !Clears(events[b], events[a].id)
  }

  ghost predicate Told(s: Scanned) {
    AllCaused(s, s.events) && DispatchLast(s.events)
  }

  /** The events of all scans, one after another. */
  ghost function Story(scans: seq<Scanned>): seq<Event> {
    if scans == [] then [] else Story(scans[..|scans| - 1]) + scans[|scans| - 1].events
  }

  /** The rows saved last. */
  function LastSaved(h: seq<Event>): seq<Row> {
    if h == [] then [] else if h[|h| - 1].Saved? then h[|h| - 1].rows else LastSaved(h[..|h| - 1])
  }

  datatype Call = Call(id: string, key: string, request: nat)

  /** The workflow calls that the history tells of. */
  function Calls(h: seq<Event>): seq<Call> {
    if h == [] then []
    else
      var e := h[|h| - 1];
      Calls(h[..|h| - 1]) + if e.Dispatch? then [Call(e.id, e.key, e.request)] else []
  }

  /** The scan starts from the rows saved last, which hold every open request. */
  ghost predicate Starts(s: Scanned, h: seq<Event>) {
    s.before == LastSaved(h) && Distinct(s.before) && Held(h, s.before)
  }

  /** The history is what the scans recorded, each starting from the rows saved last before it. */
  ghost predicate Chronicle(scans: seq<Scanned>, h: seq<Event>) {
    && h == Story(scans)
    && forall n :: 0 <= n < |scans| ==> Told(scans[n]) && Starts(scans[n], Story(scans[..n]))
  }

  ghost predicate NoSaves(events: seq<Event>) {
    forall i :: 0 <= i < |events| ==> !events[i].Saved?
  }

  lemma {:induction false} QuietEffects(h: seq<Event>, events: seq<Event>)
    requires Quiet(events) && NoSaves(events)
    ensures LastSaved(h + events) == LastSaved(h) && Calls(h + events) == Calls(h)
  {
    if events == [] {
      assert h + events == h;
    } else {
      QuietEffects(h, events[..|events| - 1]);
      assert (h + events)[..|h + events| - 1] == h + events[..|events| - 1];
    }
  }

  lemma EffectSnoc(h: seq<Event>, e: Event)
    ensures LastSaved(h + [e]) == if e.Saved? then e.rows else LastSaved(h)
    ensures Calls(h + [e]) == if e.Dispatch? then Calls(h) + [Call(e.id, e.key, e.request)] else Calls(h)
  {
    assert (h + [e])[..|h|] == h;
  }

  lemma CausedMore(s: Scanned, told: seq<Event>, more: seq<Event>)
    requires AllCaused(s, told) && AllCaused(s, more)
    ensures AllCaused(s, told + more)
  {
  }

  lemma LastMore(told: seq<Event>, more: seq<Event>)
    requires DispatchLast(told) && DispatchLast(more)
    requires forall a, b :: 0 <= a < |told| && 0 <= b < |more| && told[a].Dispatch? ==> !Clears(more[b], told[a].id)
    ensures DispatchLast(told + more)
  {
  }

  // ----- the rows a scan works on

  /** The row of a discovered target before it is settled. */
  function PreparedRow(s: Scanned, f: Found): Row {
    var row := ReconcileRow(FormerOf(s.before, f.id), f);
    if s.refresh == Some(f.id) then row.(status := "queued", manual := true, request := None, run := None) else row
  }

  ghost predicate Prepared(s: Scanned, row: Row) {
    exists f :: f in s.discovered && row == PreparedRow(s, f)
  }

  lemma PreparedKeeps(s: Scanned, f: Found)
    ensures var row := PreparedRow(s, f);
            row.id == f.id && row.head == f.head && (row.key != Some(s.obs.keyOf(f.head)) ==> Changed(s, f))
  {
  }

  lemma PreparedRequest(s: Scanned, f: Found)
    requires PreparedRow(s, f).request.Some? && PreparedRow(s, f).key.Some?
    ensures var former := FormerOf(s.before, f.id);
            former.Some? && former.value.request.Some? && RunOf(PreparedRow(s, f), s.obs) == RunOf(former.value, s.obs)
  {
  }

  /** Settling a prepared row records only what its target and its run give cause for. */
  lemma SettleCaused(s: Scanned, row: Row)
    requires Prepared(s, row)
    ensures AllCaused(s, Settle(row, s.obs).1)
    ensures forall i :: 0 <= i < |Settle(row, s.obs).1| ==> !Settle(row, s.obs).1[i].Saved?
    ensures exists f :: f in s.discovered && f.id == row.id && s.obs.keyOf(f.head) == s.obs.keyOf(row.head)
  {
    var f :| f in s.discovered && row == PreparedRow(s, f);
    PreparedKeeps(s, f);
    var key := s.obs.keyOf(row.head);
    if row.key == Some(key) && row.request.Some? {
      PreparedRequest(s, f);
    }
  }

  lemma UncausedFound(s: Scanned, f: Found)
    requires f in s.discovered && Uncaused(s, f.id)
    ensures FormerOf(s.before, f.id).Some? && !Changed(s, f) && PreparedRow(s, f) == FormerOf(s.before, f.id).value.(id := f.id)
  {
    assert !Changed(s, f);
  }

  lemma UncausedSettle(s: Scanned, row: Row)
    requires FormerOf(s.before, row.id) == Some(row) && row.request.Some? && row.key == Some(s.obs.keyOf(row.head)) && !LostIn(s, row.id)
    ensures Settle(row, s.obs).0.request == row.request
  {
    if RunOf(row, s.obs).Some? {
      assert !LostFor(s, row.id, RunOf(row, s.obs).value);
    }
  }

  /** Without a cause, a saved request outlives preparing and settling. */
  lemma UncausedRow(s: Scanned, row: Row, request: nat)
    requires Distinct(s.before) && Prepared(s, row) && HasRequest(s.before, row.id, request) && Uncaused(s, row.id)
    ensures row.request == Some(request) && Settle(row, s.obs).0.request == Some(request)
  {
    var f :| f in s.discovered && row == PreparedRow(s, f);
    PreparedKeeps(s, f);
    UncausedFound(s, f);
    var k :| 0 <= k < |s.before| && s.before[k].id == f.id && s.before[k].request == Some(request);
    FormerFound(s.before, k);
    UncausedSettle(s, row);
  }

  lemma IdleIsFree(s: Scanned, row: Row)
    requires Distinct(s.before) && Prepared(s, row) && Settle(row, s.obs).0.request.None?
    ensures Free(s, row.id)
  {
    forall request | HasRequest(s.before, row.id, request) ensures !Uncaused(s, row.id) {
      if Uncaused(s, row.id) { UncausedRow(s, row, request); }
    }
  }

  lemma PreparedKeepAll(s: Scanned)
    requires Distinct(s.before) && EachPrepared(s, PreparedRows(s)) && Ids(PreparedRows(s)) == FoundIds(s.discovered)
    ensures Keeps(s, PreparedRows(s))
  {
    var rows := PreparedRows(s);
    forall id, request: nat | HasRequest(s.before, id, request) && Uncaused(s, id) ensures HasRequest(rows, id, request) {
      var j :| 0 <= j < |rows| && FoundIds(s.discovered)[j] == id;
      assert rows[j].id == Ids(rows)[j];
      UncausedRow(s, rows[j], request);
    }
  }

  lemma KeepsPermuted(s: Scanned, rows: seq<Row>, next: seq<Row>)
    requires Keeps(s, rows) && forall row :: row in next <==> row in rows
    ensures Keeps(s, next)
  {
    forall id, request: nat | HasRequest(s.before, id, request) && Uncaused(s, id) ensures HasRequest(next, id, request) {
      var k :| 0 <= k < |rows| && rows[k].id == id && rows[k].request == Some(request);
      assert rows[k] in next;
      var j :| 0 <= j < |next| && next[j] == rows[k];
    }
  }

  lemma KeepsUpdate(s: Scanned, rows: seq<Row>, i: nat, row: Row)
    requires Keeps(s, rows) && Distinct(rows) && i < |rows| && row.id == rows[i].id
    requires row.request == rows[i].request || Free(s, row.id)
    ensures Keeps(s, rows[i := row])
  {
    forall id, request: nat | HasRequest(s.before, id, request) && Uncaused(s, id) ensures HasRequest(rows[i := row], id, request) {
      var k :| 0 <= k < |rows| && rows[k].id == id && rows[k].request == Some(request);
      assert rows[i := row][k].request == rows[k].request;
    }
  }

  lemma SettleIds(row: Row, obs: Observation)
    ensures forall i, id :: 0 <= i < |Settle(row, obs).1| && Clears(Settle(row, obs).1[i], id) ==> id == row.id
    ensures Quiet(Settle(row, obs).1)
  {
  }

  lemma {:induction false} DropsCaused(s: Scanned, rows: seq<Row>)
    requires forall i :: 0 <= i < |rows| ==> rows[i].id in Ids(s.before)
    ensures AllCaused(s, DropEvents(rows, s.discovered)) && NoSaves(DropEvents(rows, s.discovered))
  {
    if rows != [] {
      DropsCaused(s, rows[..|rows| - 1]);
    }
  }

  ghost predicate EachPrepared(s: Scanned, rows: seq<Row>) {
    forall i :: 0 <= i < |rows| ==> Prepared(s, rows[i])
  }

  lemma AllPrepared(s: Scanned)
    ensures EachPrepared(s, PreparedRows(s))
  {
    var next := PreparedRows(s);
    forall i | 0 <= i < |next| ensures Prepared(s, next[i]) {
      assert s.discovered[i] in s.discovered && next[i] == PreparedRow(s, s.discovered[i]);
    }
  }

  lemma SortedPrepared(s: Scanned, rows: seq<Row>)
    requires EachPrepared(s, rows) && forall row :: row in ManualFirst(rows) <==> row in rows
    ensures EachPrepared(s, ManualFirst(rows))
  {
    forall i | 0 <= i < |ManualFirst(rows)| ensures Prepared(s, ManualFirst(rows)[i]) {
      assert ManualFirst(rows)[i] in rows;
    }
  }

  /** The scan's record after the rows below `i`. */
  ghost predicate Telling(s: Scanned, rows: seq<Row>, i: nat, told: seq<Event>)
    requires i <= |rows|
  {
    && Distinct(s.before) && Keeps(s, rows) && (forall k :: i <= k < |rows| ==> Prepared(s, rows[k]))
    && AllCaused(s, told) && DispatchLast(told)
    && (forall a :: 0 <= a < |told| && told[a].Dispatch? ==> exists k :: 0 <= k < i && rows[k].id == told[a].id)
  }

  /** A save of the rows with another row `i`, or the dispatch of its target. */
  predicate OwnEffect(e: Event, rows: seq<Row>, i: nat, key: string)
    requires i < |rows|
  {
    match e
    case Saved(next) => |next| == |rows| && next == rows[i := next[i]] && next[i].id == rows[i].id
    case Dispatch(id, k, _) => id == rows[i].id && k == key
    case _ => false
  }

  ghost predicate OwnEffects(more: seq<Event>, rows: seq<Row>, i: nat, key: string)
    requires i < |rows|
  {
    forall k :: 0 <= k < |more| ==> OwnEffect(more[k], rows, i, key)
  }

  lemma OwnBefore(more: seq<Event>, rows: seq<Row>, i: nat, row: Row, key: string)
    requires i < |rows| && row.id == rows[i].id && OwnEffects(more, rows[i := row], i, key)
    ensures OwnEffects(more, rows, i, key)
  {
    forall k | 0 <= k < |more| ensures OwnEffect(more[k], rows, i, key) {
      assert OwnEffect(more[k], rows[i := row], i, key);
      if more[k].Saved? {
        var next := more[k].rows;
        assert rows[i := row][i := next[i]] == rows[i := next[i]];
      }
    }
  }

  /** What an idle target's effects save and dispatch has its cause. */
  lemma OwnCaused(s: Scanned, rows: seq<Row>, i: nat, more: seq<Event>)
    requires i < |rows| && Distinct(rows) && Keeps(s, rows) && OwnEffects(more, rows, i, s.obs.keyOf(rows[i].head))
    requires Prepared(s, rows[i]) && Free(s, rows[i].id)
    ensures AllCaused(s, more)
  {
    SettleCaused(s, rows[i]);
    forall k | 0 <= k < |more| ensures Caused(s, more[k]) {
      assert OwnEffect(more[k], rows, i, s.obs.keyOf(rows[i].head));
      if more[k].Saved? {
        KeepsUpdate(s, rows, i, more[k].rows[i]);
      }
    }
  }

  lemma OtherRow(rows: seq<Row>, k: nat, i: nat)
    requires Distinct(rows) && k < i < |rows|
    ensures rows[k].id != rows[i].id
  {
    assert Ids(rows)[k] != Ids(rows)[i];
  }

  /** Settling row `i`, and what followed it, belongs to the record. */
  lemma TellRow(s: Scanned, rows: seq<Row>, i: nat, told: seq<Event>, more: seq<Event>, next: seq<Row>)
    requires i < |rows| && Telling(s, rows, i, told) && Distinct(rows)
    requires |next| == |rows| && next == rows[i := next[i]] && next[i].id == rows[i].id
    requires OwnEffects(more, rows, i, s.obs.keyOf(rows[i].head))
    requires var settled := Settle(rows[i], s.obs).0; settled.request.None? || (more == [] && next[i].request == settled.request)
    ensures Telling(s, next, i + 1, told + (Settle(rows[i], s.obs).1 + more))
  {
    var settled := Settle(rows[i], s.obs).1;
    SettleCaused(s, rows[i]);
    SettleIds(rows[i], s.obs);
    SettleFacts(rows[i], s.obs);
    if Settle(rows[i], s.obs).0.request.None? {
      IdleIsFree(s, rows[i]);
      OwnCaused(s, rows, i, more);
    }
    KeepsUpdate(s, rows, i, next[i]);
    CausedMore(s, settled, more);
    CausedMore(s, told, settled + more);
    TellOrder(rows, i, told, settled, more);
    TellTargets(s, rows, i, told, settled, more, next);
  }

  lemma TellOrder(rows: seq<Row>, i: nat, told: seq<Event>, settled: seq<Event>, more: seq<Event>)
    requires i < |rows| && Distinct(rows) && DispatchLast(told) && Quiet(settled)
    requires forall b, id :: 0 <= b < |settled| && Clears(settled[b], id) ==> id == rows[i].id
    requires forall b :: 0 <= b < |more| ==> more[b].Saved? || more[b].Dispatch?
    requires forall a :: 0 <= a < |told| && told[a].Dispatch? ==> exists k :: 0 <= k < i && rows[k].id == told[a].id
    ensures DispatchLast(told + (settled + more))
  {
    LastMore(settled, more);
    forall a, b | 0 <= a < |told| && 0 <= b < |settled + more| && told[a].Dispatch? ensures !Clears((settled + more)[b], told[a].id) {
      var k :| 0 <= k < i && rows[k].id == told[a].id;
      OtherRow(rows, k, i);
    }
    LastMore(told, settled + more);
  }

  lemma TellTargets(s: Scanned, rows: seq<Row>, i: nat, told: seq<Event>, settled: seq<Event>, more: seq<Event>, next: seq<Row>)
    requires i < |rows| && Telling(s, rows, i, told) && Quiet(settled)
    requires |next| == |rows| && next == rows[i := next[i]] && next[i].id == rows[i].id
    requires OwnEffects(more, rows, i, s.obs.keyOf(rows[i].head))
    ensures forall k :: i + 1 <= k < |next| ==> Prepared(s, next[k])
    ensures var all := told + (settled + more);
            forall a :: 0 <= a < |all| && all[a].Dispatch? ==> exists k :: 0 <= k < i + 1 && next[k].id == all[a].id
  {
    var all := told + (settled + more);
    forall a | 0 <= a < |all| && all[a].Dispatch? ensures exists k :: 0 <= k < i + 1 && next[k].id == all[a].id {
      if a < |told| {
        var k :| 0 <= k < i && rows[k].id == told[a].id;
        assert next[k] == rows[k];
      } else {
        assert a >= |told| + |settled|;
        assert OwnEffect(more[a - |told| - |settled|], rows, i, s.obs.keyOf(rows[i].head));
        assert next[i].id == all[a].id;
      }
    }
    forall k | i + 1 <= k < |next| ensures Prepared(s, next[k]) {
      assert next[k] == rows[k];
    }
  }

  /** The persisted state, the workflow calls made, and how many effects happen before the scan is
      interrupted. */
  class Coordinator {
    var persisted: seq<Row>
    var sent: seq<Call>
    var issued: nat
    var calls: nat
    ghost var history: seq<Event>
    ghost var scans: seq<Scanned>

    /** The history tells the effects, and every open request is recorded. */
    ghost predicate Coherent()
      reads this
    {
      CoherentState(persisted, sent, history, issued)
    }

    ghost predicate Valid()
      reads this
    {
      Coherent() && Chronicle(scans, history)
    }

    constructor ()
      ensures Valid() && history == [] && persisted == [] && scans == [] && sent == []
    {
      persisted, sent, issued, calls, history, scans := [], [], 0, 0, [], [];
    }

    /** The scan's memory agrees with the history as far as open requests go. */
    ghost predicate InStep(rows: seq<Row>)
      reads this
    {
      Coherent() && Distinct(rows) && Held(history, rows)
    }

    ghost method Record(events: seq<Event>)
      requires Coherent() && Quiet(events) && NoSaves(events)
      modifies this`history
      ensures Coherent() && history == old(history) + events
    {
      QuietSafe(history, events, issued);
      HeldMore(history, persisted, events);
      QuietEffects(history, events);
      history := history + events;
    }

    method Save(rows: seq<Row>) returns (done: bool)
      requires InStep(rows)
      modifies this`persisted, this`calls, this`history
      ensures InStep(rows) && done == (old(calls) > 0)
      ensures history == old(history) + if done then [Saved(rows)] else []
      ensures persisted == if done then rows else old(persisted)
    {
      done := calls > 0;
      if done {
        SaveCoherent(persisted, sent, history, issued, rows);
        history := history + [Saved(rows)];
        persisted, calls := rows, calls - 1;
      } else {
        assert history == history + [];
      }
    }

    /** Settle row `i`; `idle` says that no request is open for it any more. */
    method SettleRow(rows: seq<Row>, i: nat, obs: Observation) returns (next: seq<Row>, idle: bool, lost: set<nat>)
      requires InStep(rows) && i < |rows| && NoSaves(Settle(rows[i], obs).1)
      modifies this`history
      ensures InStep(next) && next == rows[i := Settle(rows[i], obs).0] && history == old(history) + Settle(rows[i], obs).1
      ensures idle == next[i].request.None? && lost == LostRun(rows[i], obs)
    {
      var settled := Settle(rows[i], obs);
      SettleFacts(rows[i], obs);
      next := rows[i := settled.0];
      DistinctUpdate(rows, i, settled.0);
      HeldUpdate(history, rows, i, settled.0, settled.1);
      Record(settled.1);
      idle, lost := settled.0.request.None?, LostRun(rows[i], obs);
    }

    /** Save the intent, if the interruption leaves time for it. */
    method SaveIntent(rows: seq<Row>, i: nat, row: Row) returns (ghost more: seq<Event>)
      requires InStep(rows) && i < |rows| && rows[i].request.None? && row.id == rows[i].id
      modifies this`persisted, this`calls, this`history, this`issued
      ensures InStep(rows[i := row]) && history == old(history) + more
      ensures more == [] || more == [Saved(rows[i := row])]
    {
      IntentInStep(history, rows, i, row);
      issued := issued + 1;
      var saved := Save(rows[i := row]);
      more := if saved then [Saved(rows[i := row])] else [];
    }

    /** Save the intent, then dispatch it. The call's outcome may stay unknown. */
    method DispatchRow(rows: seq<Row>, i: nat, key: string, started: Option<nat>) returns (next: seq<Row>, done: bool, ghost more: seq<Event>)
      requires InStep(rows) && i < |rows| && rows[i].request.None?
      modifies this`persisted, this`calls, this`history, this`issued, this`sent
      ensures InStep(next) && |next| == |rows| && next == rows[i := next[i]] && next[i].request.Some?
      ensures next[i].id == rows[i].id && next[i].key == rows[i].key && next[i].head == rows[i].head
      ensures history == old(history) + more
      ensures OwnEffects(more, rows, i, key)
      ensures done ==> next[i].request == Some(old(issued)) && more == [Saved(persisted), Dispatch(rows[i].id, key, old(issued))]
      ensures sent == old(sent) + if done then [Call(rows[i].id, key, old(issued))] else []
    {
      var request := issued;
      var row := rows[i].(request := Some(request), status := "dispatching", manual := false);
      next := rows[i := row];
      done := calls > 1;
      if !done {
        more := SaveIntent(rows, i, row);
        AppendThree(sent, [], []);
        return;
      }
      DispatchCoherent(persisted, sent, history, issued, rows, i, row, key);
      more := [Saved(next), Dispatch(row.id, key, request)];
      persisted, issued, calls, sent, history := next, request + 1, calls - 2, sent + [Call(row.id, key, request)], history + more;
      var started' := row.(status := "scanning", run := if started.Some? then started else row.run,
                           attempt := if started.Some? then 1 else row.attempt);
      StartedInStep(history, next, i, started');
      next := next[i := started'];
    }

    /** Reconcile with discovery, refresh, and put explicit refreshes first. */
    method PrepareRows(discovered: seq<Found>, refresh: Option<string>, ghost scan: Scanned) returns (rows: seq<Row>, ghost told: seq<Event>)
      requires Coherent() && NoDup(FoundIds(discovered)) && (refresh.Some? ==> refresh.value in FoundIds(discovered))
      requires scan.before == persisted && scan.discovered == discovered && scan.refresh == refresh
      modifies this`history
      ensures InStep(rows) && history == old(history) + told
      ensures SameIds(rows, FoundIds(discovered)) && Telling(scan, rows, 0, told)
    {
      rows := Reconcile(persisted, discovered);
      told := PreparedEvents(scan);
      PreparedHeld(scan, history);
      Record(told);
      if refresh.Some? {
        rows := Refresh(rows, refresh.value);
      }
      SortedFacts(history, rows);
      SameIdsSorted(rows, FoundIds(discovered));
      SortedPrepared(scan, rows);
      PreparedKeepAll(scan);
      KeepsPermuted(scan, rows, ManualFirst(rows));
      rows := ManualFirst(rows);
    }

    /** Reuse a sibling's evidence for row `i`, or dispatch it. */
    method ServeRow(rows: seq<Row>, i: nat, key: string, expired: set<nat>, started: Option<nat>) returns (next: seq<Row>, done: bool, ghost more: seq<Event>)
      requires InStep(rows) && i < |rows| && rows[i].request.None?
      modifies this`persisted, this`calls, this`history, this`issued, this`sent
      ensures InStep(next) && |next| == |rows| && next == rows[i := next[i]] && next[i].id == rows[i].id
      ensures next[i].key == rows[i].key && next[i].head == rows[i].head
      ensures history == old(history) + more && OwnEffects(more, rows, i, key)
      ensures next[i].request.Some? || next[i].status == "collected"
    {
      var sibling := Reusable(rows, rows[i], key, expired);
      if sibling.Some? {
        var row := rows[i].(run := sibling.value.run, attempt := sibling.value.attempt, status := "collected");
        StartedInStep(history, rows, i, row);
        next, done, more := rows[i := row], true, [];
        AppendThree(history, more, more);
      } else {
        next, done, more := DispatchRow(rows, i, key, started);
      }
    }

    /** Settle row `i`, then leave it or serve it. */
    method AttendRow(rows: seq<Row>, i: nat, obs: Observation, expired: set<nat>, started: Option<nat>, ghost scan: Scanned, ghost told: seq<Event>)
        returns (next: seq<Row>, expired': set<nat>, done: bool, ghost events: seq<Event>)
      requires InStep(rows) && i < |rows| && obs == scan.obs && Telling(scan, rows, i, told)
      modifies this`persisted, this`calls, this`history, this`issued, this`sent
      ensures InStep(next) && |next| == |rows| && next == rows[i := next[i]] && next[i].id == rows[i].id
      ensures history == old(history) + events && Telling(scan, next, i + 1, told + events)
      ensures Attended(next[i], obs)
    {
      var key := obs.keyOf(rows[i].head);
      SettleFacts(rows[i], obs);
      SettleCaused(scan, rows[i]);
      ghost var more: seq<Event>, settled := [], Settle(rows[i], obs);
      var idle, lost;
      next, idle, lost := SettleRow(rows, i, obs);
      expired', done := expired + lost, true;
      if idle {
        next, done, more := ServeRow(next, i, key, expired', started);
        OwnBefore(more, rows, i, settled.0, key);
        UpdateTwice(rows, i, settled.0, next[i]);
      }
      TellRow(scan, rows, i, told, more, next);
      events := settled.1 + more;
      AppendThree(old(history), settled.1, more);
    }

    /** Every row in turn. */
    method AttendRows(prepared: seq<Row>, obs: Observation, started: seq<Option<nat>>, ghost scan: Scanned, ghost told: seq<Event>)
        returns (rows: seq<Row>, done: bool, ghost events: seq<Event>)
      requires InStep(prepared) && obs == scan.obs && Telling(scan, prepared, 0, told) && SameIds(prepared, FoundIds(scan.discovered))
      modifies this`persisted, this`calls, this`history, this`issued, this`sent
      ensures InStep(rows) && SameIds(rows, FoundIds(scan.discovered))
      ensures history == old(history) + events && AllCaused(scan, told + events) && DispatchLast(told + events) && Keeps(scan, rows)
      ensures done ==> forall k :: 0 <= k < |rows| ==> Attended(rows[k], obs)
    {
      rows, done, events := prepared, true, [];
      var expired: set<nat> := {};
      var i := 0;
      AppendThree(history, events, events);
      AppendThree(told, events, events);
      while i < |rows| && done
        invariant 0 <= i <= |rows| && InStep(rows) && history == old(history) + events
        invariant SameIds(rows, FoundIds(scan.discovered)) && Telling(scan, rows, i, told + events)
        invariant done ==> forall k :: 0 <= k < i ==> Attended(rows[k], obs)
        decreases |rows| - i
      {
        ghost var before, more := rows, [];
        rows, expired, done, more := AttendRow(rows, i, obs, expired, if i < |started| then started[i] else None, scan, told + events);
        SameIdsUpdate(before, FoundIds(scan.discovered), i, rows[i]);
        AppendThree(old(history), events, more);
        AppendThree(told, events, more);
        events := events + more;
        i := i + 1;
      }
    }

    /** A scan that is not refused: prepare, attend to every row, save. */
    method ScanRows(obs: Observation, discovered: seq<Found>, refresh: Option<string>, started: seq<Option<nat>>, ghost scan: Scanned)
        returns (done: bool, ghost events: seq<Event>)
      requires Coherent() && NoDup(FoundIds(discovered)) && (refresh.Some? ==> refresh.value in FoundIds(discovered))
      requires scan == Scanned(persisted, obs, discovered, refresh, [])
      modifies this`persisted, this`calls, this`history, this`issued, this`sent
      ensures Coherent() && history == old(history) + events && AllCaused(scan, events) && DispatchLast(events)
      ensures done ==> SameIds(persisted, FoundIds(discovered)) && forall i :: 0 <= i < |persisted| ==> Attended(persisted[i], obs)
    {
      ghost var h := history;
      var rows;
      ghost var told, more;
      rows, told := PrepareRows(discovered, refresh, scan);
      rows, done, more := AttendRows(rows, obs, started, scan, told);
      AppendThree(h, told, more);
      events := told + more;
      if done {
        done := Save(rows);
        ghost var saves := if done then [Saved(rows)] else [];
        SavedLast(scan, events, saves);
        AppendThree(h, events, saves);
        events := events + saves;
      }
    }

    /** One scan. `done` is false when it was refused or interrupted. */
    method RunScan(obs: Observation, discovered: seq<Found>, refresh: Option<string>, started: seq<Option<nat>>) returns (done: bool)
      requires Valid() && NoDup(FoundIds(discovered))
      modifies this
      ensures Valid()
      ensures |scans| == |old(scans)| + 1 && old(scans) == scans[..|old(scans)|]
      ensures var scan := scans[|old(scans)|];
              scan == Scanned(old(persisted), obs, discovered, refresh, scan.events) && history == old(history) + scan.events
      ensures done ==> SameIds(persisted, FoundIds(discovered)) && forall i :: 0 <= i < |persisted| ==> Attended(persisted[i], obs)
    {
      ghost var scan, h := Scanned(persisted, obs, discovered, refresh, []), history;
      ghost var events: seq<Event> := [];
      done := false;
      if refresh.None? || refresh.value in FoundIds(discovered) {
        done, events := ScanRows(obs, discovered, refresh, started, scan);
      } else {
        AppendThree(h, events, events);
      }
      ChronicleMore(scans, h, scan, events);
      scans := scans + [scan.(events := events)];
    }
  }

  lemma UpdateTwice<T>(s: seq<T>, i: nat, x: T, y: T)
    requires i < |s|
    ensures s[i := x][i := y] == s[i := y]
  {
  }

  lemma AppendThree<T>(a: seq<T>, b: seq<T>, c: seq<T>)
    ensures a + b + c == a + (b + c) && a + [] == a && [] + a == a
  {
  }

  lemma SavedLast(s: Scanned, told: seq<Event>, saves: seq<Event>)
    requires AllCaused(s, told) && DispatchLast(told)
    requires forall i :: 0 <= i < |saves| ==> saves[i].Saved? && Keeps(s, saves[i].rows)
    ensures AllCaused(s, told + saves) && DispatchLast(told + saves)
  {
    CausedMore(s, told, saves);
    LastMore(told, saves);
  }

  // ----- the steps of a scan, on values

  ghost predicate CoherentState(persisted: seq<Row>, sent: seq<Call>, h: seq<Event>, issued: nat) {
    && Distinct(persisted) && Held(h, persisted) && persisted == LastSaved(h) && sent == Calls(h)
    && Safe(h) && IssuedBelow(h, issued) && OnceEach(h)
  }

  lemma IntentInStep(h: seq<Event>, rows: seq<Row>, i: nat, row: Row)
    requires Held(h, rows) && Distinct(rows) && i < |rows| && row.id == rows[i].id && rows[i].request.None?
    ensures Held(h, rows[i := row]) && Distinct(rows[i := row]) && OpenRequest(h, row.id).None?
  {
    HeldNotOpen(h, rows, i);
    HeldFresh(h, rows, i, row);
    DistinctUpdate(rows, i, row);
  }

  lemma StartedInStep(h: seq<Event>, rows: seq<Row>, i: nat, row: Row)
    requires Held(h, rows) && Distinct(rows) && i < |rows| && row.id == rows[i].id && row.request == rows[i].request
    ensures Held(h, rows[i := row]) && Distinct(rows[i := row])
  {
    DistinctUpdate(rows, i, row);
    HeldUpdate(h, rows, i, row, []);
    AppendThree(h, [], []);
  }

  lemma TwoMore(h: seq<Event>, a: Event, b: Event)
    ensures h + [a] + [b] == h + [a, b]
  {
  }

  lemma SaveCoherent(persisted: seq<Row>, sent: seq<Call>, h: seq<Event>, issued: nat, rows: seq<Row>)
    requires CoherentState(persisted, sent, h, issued) && Held(h, rows) && Distinct(rows)
    ensures CoherentState(rows, sent, h + [Saved(rows)], issued)
  {
    QuietSafe(h, [Saved(rows)], issued);
    HeldMore(h, rows, [Saved(rows)]);
    EffectSnoc(h, Saved(rows));
  }

  lemma DispatchHeld(h: seq<Event>, rows: seq<Row>, i: nat, row: Row, key: string, issued: nat)
    requires Held(h, rows) && Distinct(rows) && i < |rows| && row.id == rows[i].id && row.request == Some(issued)
    ensures Held(h + [Saved(rows[i := row]), Dispatch(row.id, key, issued)], rows[i := row]) && Distinct(rows[i := row])
  {
    HeldDispatched(h, rows, i, row, key, issued);
    DistinctUpdate(rows, i, row);
    TwoMore(h, Saved(rows[i := row]), Dispatch(row.id, key, issued));
  }

  lemma DispatchEffects(h: seq<Event>, rows: seq<Row>, id: string, key: string, issued: nat)
    ensures LastSaved(h + [Saved(rows), Dispatch(id, key, issued)]) == rows
    ensures Calls(h + [Saved(rows), Dispatch(id, key, issued)]) == Calls(h) + [Call(id, key, issued)]
  {
    EffectSnoc(h, Saved(rows));
    EffectSnoc(h + [Saved(rows)], Dispatch(id, key, issued));
    TwoMore(h, Saved(rows), Dispatch(id, key, issued));
  }

  lemma DispatchCoherent(persisted: seq<Row>, sent: seq<Call>, h: seq<Event>, issued: nat, rows: seq<Row>, i: nat, row: Row, key: string)
    requires CoherentState(persisted, sent, h, issued) && Held(h, rows) && Distinct(rows)
    requires i < |rows| && row.id == rows[i].id && rows[i].request.None? && row.request == Some(issued)
    ensures var next, h' := rows[i := row], h + [Saved(rows[i := row]), Dispatch(row.id, key, issued)];
            CoherentState(next, sent + [Call(row.id, key, issued)], h', issued + 1)
  {
    var next := rows[i := row];
    HeldNotOpen(h, rows, i);
    assert next[i] == row;
    DispatchHeld(h, rows, i, row, key, issued);
    DispatchSafe(h, next, row.id, key, issued);
    TwoMore(h, Saved(next), Dispatch(row.id, key, issued));
    DispatchEffects(h, next, row.id, key, issued);
  }

  ghost function PreparedEvents(s: Scanned): seq<Event> {
    DropEvents(s.before, s.discovered) + if s.refresh.Some? then [Refreshed(s.refresh.value)] else []
  }

  function PreparedRows(s: Scanned): seq<Row> {
    var rows := Reconcile(s.before, s.discovered);
    if s.refresh.Some? then Refresh(rows, s.refresh.value) else rows
  }

  lemma DropsTold(s: Scanned, h: seq<Event>)
    requires Held(h, s.before) && Distinct(s.before) && NoDup(FoundIds(s.discovered))
    ensures var drops, rows := DropEvents(s.before, s.discovered), Reconcile(s.before, s.discovered);
            && Held(h + drops, rows) && Distinct(rows) && Ids(rows) == FoundIds(s.discovered)
            && Quiet(drops) && NoSaves(drops) && AllCaused(s, drops)
  {
    HeldReconciled(h, s.before, s.discovered);
    forall i | 0 <= i < |s.before| ensures s.before[i].id in Ids(s.before) {
      assert Ids(s.before)[i] == s.before[i].id;
    }
    DropsCaused(s, s.before);
  }

  lemma OneMoreTold(s: Scanned, events: seq<Event>, id: string)
    requires Quiet(events) && NoSaves(events) && AllCaused(s, events) && s.refresh == Some(id)
    ensures Quiet(events + [Refreshed(id)]) && NoSaves(events + [Refreshed(id)]) && AllCaused(s, events + [Refreshed(id)])
  {
    CausedMore(s, events, [Refreshed(id)]);
  }

  /** What reconciling and refreshing record, and the rows they leave. */
  lemma PreparedHeld(s: Scanned, h: seq<Event>)
    requires Held(h, s.before) && Distinct(s.before) && NoDup(FoundIds(s.discovered))
    ensures Held(h + PreparedEvents(s), PreparedRows(s)) && Distinct(PreparedRows(s))
    ensures Quiet(PreparedEvents(s)) && NoSaves(PreparedEvents(s)) && AllCaused(s, PreparedEvents(s))
    ensures Ids(PreparedRows(s)) == FoundIds(s.discovered)
    ensures EachPrepared(s, PreparedRows(s))
  {
    var drops, rows := DropEvents(s.before, s.discovered), Reconcile(s.before, s.discovered);
    DropsTold(s, h);
    AllPrepared(s);
    if s.refresh.Some? {
      var id := s.refresh.value;
      HeldRefreshed(h + drops, rows, id);
      OneMoreTold(s, drops, id);
      AppendThree(h, drops, [Refreshed(id)]);
      assert PreparedEvents(s) == drops + [Refreshed(id)] && PreparedRows(s) == Refresh(rows, id);
      assert Ids(Refresh(rows, id)) == Ids(rows);
    } else {
      AppendThree(drops, [], []);
      assert PreparedEvents(s) == drops && PreparedRows(s) == rows;
    }
  }

  lemma ChronicleMore(scans: seq<Scanned>, h: seq<Event>, scan: Scanned, told: seq<Event>)
    requires Chronicle(scans, h) && Starts(scan, h) && AllCaused(scan, told) && DispatchLast(told)
    ensures Chronicle(scans + [scan.(events := told)], h + told)
  {
    var last := scan.(events := told);
    var all := scans + [last];
    assert all[..|scans|] == scans;
    SameCauses(scan, last, told);
    forall n | 0 <= n < |all| ensures Told(all[n]) && Starts(all[n], Story(all[..n])) {
      if n < |scans| {
        assert all[..n] == scans[..n] && Told(scans[n]);
      }
    }
  }

  lemma SameUncaused(a: Scanned, b: Scanned, id: string)
    requires b == a.(events := b.events)
    ensures Uncaused(a, id) == Uncaused(b, id)
  {
    forall f ensures Changed(a, f) == Changed(b, f) { }
    forall run ensures LostFor(a, id, run) == LostFor(b, id, run) { }
  }

  lemma SameCauses(a: Scanned, b: Scanned, events: seq<Event>)
    requires AllCaused(a, events) && b == a.(events := b.events)
    ensures AllCaused(b, events)
  {
    forall i | 0 <= i < |events| ensures Caused(b, events[i]) {
      assert Caused(a, events[i]);
      forall f ensures Changed(a, f) == Changed(b, f) { }
      forall id ensures Uncaused(a, id) == Uncaused(b, id) { SameUncaused(a, b, id); }
    }
  }

  lemma HeldFresh(h: seq<Event>, rows: seq<Row>, i: nat, row: Row)
    requires Held(h, rows) && Distinct(rows) && i < |rows| && row.id == rows[i].id && OpenRequest(h, row.id).None?
    ensures Held(h, rows[i := row])
  {
    forall id | OpenRequest(h, id).Some? ensures HasRequest(rows[i := row], id, OpenRequest(h, id).value) {
      var k :| 0 <= k < |rows| && rows[k].id == id && rows[k].request == Some(OpenRequest(h, id).value);
      assert rows[i := row][k] == rows[k];
    }
  }

  // ----- what the history says

  /** Between two dispatches for one target, something ended the first request. */
  lemma {:induction false} OpenUntilCleared(h: seq<Event>, i: nat, j: nat, id: string)
    requires i < j <= |h| && h[i].Dispatch? && h[i].id == id && OpenRequest(h[..j], id).None?
    ensures exists k :: i < k < j && Clears(h[k], id)
  {
    assert h[..j][..j - 1] == h[..j - 1] && h[..j][j - 1] == h[j - 1];
    if !Clears(h[j - 1], id) {
      OpenUntilCleared(h, i, j - 1, id);
      var k :| i < k < j - 1 && Clears(h[k], id);
    }
  }

  /** Between two dispatches for one target, some event ended the first request. */
  lemma DispatchesSeparated(h: seq<Event>, i: nat, j: nat)
    requires Safe(h) && i < j < |h| && h[i].Dispatch? && h[j].Dispatch? && h[i].id == h[j].id
    ensures exists k :: i < k < j && Clears(h[k], h[i].id)
  {
    assert SafeAt(h, j);
    OpenUntilCleared(h, i, j, h[i].id);
  }

  // ----- what the scans say

  lemma CauseOf(s: Scanned, e: Event, id: string)
    requires Caused(s, e) && Clears(e, id)
    ensures !Uncaused(s, id)
  {
  }

  ghost function StartOf(scans: seq<Scanned>, n: nat): nat
    requires n <= |scans|
  {
    |Story(scans[..n])|
  }

  /** The event `a` of scan `n`, in the history. */
  lemma {:induction false} InStory(scans: seq<Scanned>, n: nat, a: nat)
    requires n < |scans| && a < |scans[n].events|
    ensures StartOf(scans, n) + a < |Story(scans)| && Story(scans)[StartOf(scans, n) + a] == scans[n].events[a]
    ensures StartOf(scans, n + 1) == StartOf(scans, n) + |scans[n].events|
  {
    var front := scans[..|scans| - 1];
    assert scans[..n + 1][..n] == scans[..n];
    if n < |front| {
      InStory(front, n, a);
      assert front[..n] == scans[..n];
    }
  }

  /** The scan that recorded an event of the history. */
  lemma {:induction false} ScanOf(scans: seq<Scanned>, k: nat) returns (n: nat, a: nat)
    requires k < |Story(scans)|
    ensures n < |scans| && a < |scans[n].events| && k == StartOf(scans, n) + a && Story(scans)[k] == scans[n].events[a]
  {
    var front := scans[..|scans| - 1];
    if k < |Story(front)| {
      n, a := ScanOf(front, k);
      assert front[..n] == scans[..n];
    } else {
      n, a := |front|, k - |Story(front)|;
    }
  }

  lemma {:induction false} StartsGrow(scans: seq<Scanned>, m: nat, n: nat)
    requires m <= n <= |scans|
    ensures StartOf(scans, m) <= StartOf(scans, n)
  {
    if m < n {
      StartsGrow(scans, m, n - 1);
      assert scans[..n][..n - 1] == scans[..n - 1];
    }
  }

  /** Within one scan, no target is dispatched twice; and what ends a request comes before its dispatch. */
  lemma LaterScan(scans: seq<Scanned>, m: nat, a: nat, p: nat, b: nat, id: string)
    requires m < |scans| && p < |scans| && a < |scans[m].events| && b < |scans[p].events| && Told(scans[m])
    requires StartOf(scans, m) + a < StartOf(scans, p) + b
    requires scans[m].events[a].Dispatch? && scans[m].events[a].id == id && Clears(scans[p].events[b], id)
    ensures m < p
  {
    if p < m {
      InStory(scans, p, b);
      StartsGrow(scans, p + 1, m);
    }
  }

  lemma NotBefore(scans: seq<Scanned>, p: nat, b: nat, n: nat, c: nat)
    requires p < |scans| && n < |scans| && b < |scans[p].events| && c < |scans[n].events|
    requires StartOf(scans, p) + b < StartOf(scans, n) + c
    ensures p <= n
  {
    if n < p {
      InStory(scans, n, c);
      StartsGrow(scans, n + 1, p);
    }
  }

  /** Where the history ends the first of two dispatched requests for one target. */
  lemma ClearBetween(scans: seq<Scanned>, m: nat, a: nat, n: nat, b: nat) returns (k: nat)
    requires Safe(Story(scans))
    requires m < |scans| && n < |scans| && a < |scans[m].events| && b < |scans[n].events|
    requires StartOf(scans, m) + a < StartOf(scans, n) + b
    requires scans[m].events[a].Dispatch? && scans[n].events[b].Dispatch? && scans[m].events[a].id == scans[n].events[b].id
    ensures StartOf(scans, m) + a < k < StartOf(scans, n) + b && k < |Story(scans)| && Clears(Story(scans)[k], scans[m].events[a].id)
  {
    var h, i, j := Story(scans), StartOf(scans, m) + a, StartOf(scans, n) + b;
    InStory(scans, m, a);
    InStory(scans, n, b);
    DispatchesSeparated(h, i, j);
    k :| i < k < j && Clears(h[k], h[i].id);
  }

  /** The scan that ended the first of two dispatched requests for one target. */
  lemma SeparatingScan(scans: seq<Scanned>, h: seq<Event>, m: nat, a: nat, n: nat, b: nat) returns (p: nat, c: nat)
    requires Chronicle(scans, h) && Safe(h)
    requires m < |scans| && n < |scans| && a < |scans[m].events| && b < |scans[n].events|
    requires StartOf(scans, m) + a < StartOf(scans, n) + b
    requires scans[m].events[a].Dispatch? && scans[n].events[b].Dispatch? && scans[m].events[a].id == scans[n].events[b].id
    ensures m < p <= n && c < |scans[p].events| && Clears(scans[p].events[c], scans[m].events[a].id)
  {
    var k := ClearBetween(scans, m, a, n, b);
    p, c := ScanOf(scans, k);
    assert Told(scans[m]);
    LaterScan(scans, m, a, p, c, scans[m].events[a].id);
    NotBefore(scans, p, c, n, b);
  }

  /** Dispatch safety, over all scans and interruptions: between two dispatches for the same target there
      is a later scan, up to the one that dispatches again, which refreshed the target by hand, or saw the
      run of its saved request complete without usable evidence, or did not discover it, or discovered it
      with other revisions or another analysis key than were saved. */
  lemma DispatchesHaveCause(scans: seq<Scanned>, h: seq<Event>, m: nat, a: nat, n: nat, b: nat)
    requires Chronicle(scans, h) && Safe(h)
    requires m < |scans| && n < |scans| && a < |scans[m].events| && b < |scans[n].events|
    requires StartOf(scans, m) + a < StartOf(scans, n) + b
    requires scans[m].events[a].Dispatch? && scans[n].events[b].Dispatch? && scans[m].events[a].id == scans[n].events[b].id
    ensures var id := scans[m].events[a].id;
            && (exists p :: m < p <= n && (RefreshedIn(scans[p], id) || LostIn(scans[p], id) || ReplacedIn(scans[p], id)))
            && ((forall p :: m < p <= n ==> !ReplacedIn(scans[p], id))
                ==> exists p :: m < p <= n && (RefreshedIn(scans[p], id) || LostIn(scans[p], id)))
  {
    var id := scans[m].events[a].id;
    var p, c := SeparatingScan(scans, h, m, a, n, b);
    assert Told(scans[p]) && Caused(scans[p], scans[p].events[c]);
    CauseOf(scans[p], scans[p].events[c], id);
  }

  lemma {:induction false} KeptBySaves(s: Scanned, h: seq<Event>, events: seq<Event>)
    requires LastSaved(h) == s.before && AllCaused(s, events)
    ensures Keeps(s, LastSaved(h + events))
  {
    if events == [] {
      assert h + events == h;
    } else {
      var front, e := events[..|events| - 1], events[|events| - 1];
      KeptBySaves(s, h, front);
      assert h + events == (h + front) + [e] && Caused(s, e);
      EffectSnoc(h + front, e);
    }
  }

  /** What scan `n` keeps is what the next one starts from. */
  ghost predicate Handed(scans: seq<Scanned>, n: nat) {
    n + 1 < |scans| ==> Keeps(scans[n], scans[n + 1].before)
  }

  lemma HandedOn(scans: seq<Scanned>, h: seq<Event>, n: nat)
    requires Chronicle(scans, h)
    ensures Handed(scans, n)
  {
    if n + 1 < |scans| {
      assert Told(scans[n]) && Starts(scans[n], Story(scans[..n])) && Starts(scans[n + 1], Story(scans[..n + 1]));
      assert scans[..n + 1][..n] == scans[..n];
      KeptBySaves(scans[n], Story(scans[..n]), scans[n].events);
    }
  }

  /** A saved request is in every later saved state, until some scan gives cause to end it. */
  lemma {:induction false} SavedUntilCause(scans: seq<Scanned>, m: nat, n: nat, id: string, request: nat)
    requires forall p: nat :: Handed(scans, p)
    requires m <= n < |scans| && HasRequest(scans[m].before, id, request)
    requires forall p :: m <= p < n ==> Uncaused(scans[p], id)
    ensures HasRequest(scans[n].before, id, request)
  {
    if m < n {
      SavedUntilCause(scans, m, n - 1, id, request);
      assert Handed(scans, n - 1) && Uncaused(scans[n - 1], id);
    }
  }

  /** A scan that neither refreshes the target, nor sees its evidence lost, nor finds it replaced does not dispatch
      a target with a saved request, whether its call was made, failed, or was cut off before it. */
  lemma OpenIsNotRepeated(scans: seq<Scanned>, h: seq<Event>, n: nat, b: nat, id: string, request: nat)
    requires Chronicle(scans, h) && n < |scans| && HasRequest(scans[n].before, id, request) && Uncaused(scans[n], id)
    requires b < |scans[n].events|
    ensures !(scans[n].events[b].Dispatch? && scans[n].events[b].id == id)
  {
    assert Told(scans[n]) && Caused(scans[n], scans[n].events[b]);
  }

  /** And over all scans: between the moment a request is saved and any later dispatch for its target, some scan
      gave one of these causes. */
  lemma SavedHaveCause(scans: seq<Scanned>, h: seq<Event>, m: nat, n: nat, b: nat, id: string, request: nat)
    requires Chronicle(scans, h) && m <= n < |scans| && HasRequest(scans[m].before, id, request)
    requires b < |scans[n].events| && scans[n].events[b].Dispatch? && scans[n].events[b].id == id
    ensures exists p :: m <= p <= n && (RefreshedIn(scans[p], id) || LostIn(scans[p], id) || ReplacedIn(scans[p], id))
  {
    if forall p :: m <= p <= n ==> Uncaused(scans[p], id) {
      forall p: nat ensures Handed(scans, p) { HandedOn(scans, h, p); }
      SavedUntilCause(scans, m, n, id, request);
      OpenIsNotRepeated(scans, h, n, b, id, request);
      assert false;
    }
    var p :| m <= p <= n && !Uncaused(scans[p], id);
  }

  /** An open dispatched request is among the saved ones. */
  lemma OpenIsSaved(scans: seq<Scanned>, h: seq<Event>, n: nat, id: string)
    requires Chronicle(scans, h) && n < |scans| && OpenRequest(Story(scans[..n]), id).Some?
    ensures HasRequest(scans[n].before, id, OpenRequest(Story(scans[..n]), id).value)
  {
    assert Starts(scans[n], Story(scans[..n]));
  }

  /** Nothing is dispatched twice, and nothing is dispatched before its intent is saved. */
  lemma DispatchedOnceAfterSaving(h: seq<Event>, j: nat)
    requires Safe(h) && OnceEach(h) && j < |h| && h[j].Dispatch?
    ensures j > 0 && h[j - 1].Saved? && HasRequest(h[j - 1].rows, h[j].id, h[j].request)
    ensures forall i :: 0 <= i < |h| && i != j && h[i].Dispatch? ==> h[i].request != h[j].request
  {
    assert SafeAt(h, j);
  }

  /** A request whose run is not listed is left alone: its outcome is unknown. */
  lemma UncertainIsKept(row: Row, obs: Observation)
    requires row.request.Some? && row.key == Some(obs.keyOf(row.head)) && RunOf(row, obs).None?
    ensures Settle(row, obs) == (row, [])
  {
    var none: seq<Event> := [];
    assert Rekey(row, obs.keyOf(row.head)) == (row, none) && Follow(row, obs) == (row, none) && none + none == none;
  }

  /** What a scan does to a target that it knew before: it is up for dispatch exactly when it had no
      request, its key or one of its revisions changed, or its run's evidence is lost. */
  lemma DueExactly(row: Row, f: Found, obs: Observation)
    requires row.id == f.id
    ensures var next := ReconcileRow(Some(row), f);
            && (Settle(next, obs).0.request.None?
                <==> || row.request.None? || row.head != f.head || row.base != f.base || row.key != Some(obs.keyOf(row.head))
                     || (RunOf(row, obs).Some? && Lost(RunOf(row, obs).value, obs)))
  {
  }

  /** A change of the base revision alone, which is no part of the key, makes a collected target
      due again under the same key: no refresh and no lost evidence is needed. */
  lemma BaseChangeIsDue(row: Row, f: Found, obs: Observation)
    requires row.id == f.id && row.head == f.head && row.base != f.base
    requires row.request.Some? && row.key == Some(obs.keyOf(row.head)) && row.status == "collected"
    ensures var s := Settle(ReconcileRow(Some(row), f), obs);
            s.0.request.None? && s.0.key == row.key && s.1 == [Rekeyed(row.id, obs.keyOf(row.head))]
  {
  }
}
