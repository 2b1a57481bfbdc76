/** Accounting is not kept by every merge: a concrete pair of accounted reports whose merge is not. */
module MergeCounterexample {
  import opened Sequences
  import opened Text
  import opened Identity
  import opened Canonical
  import opened CanonicalTheorems
  import opened Accounting
  import opened Merge
  import opened MergeFindings
  import opened MergeTheorems
  import MergeAccounts
  import StatusContract

  const RAW := RawFinding(None, None, None, None, None, None, None, None, None, None, None, 1, 1, 1, "")

  function Evidence(id: string, family: string): Observation {
    Observation(id, family, family, "", RAW)
  }

  function Lane(channel: string, status: string, id: string): ChannelRow {
    ChannelRow(channel, channel, status, "", [id], 1, None)
  }

  function Issue(sid: string, ids: seq<string>, families: seq<string>): Finding {
    Finding(sid, "", "", "", "", 1, "", "", families, [], ids, "")
  }

  function Observed(x: string, y: string): seq<Observation> {
    [Evidence(x, "a"), Evidence(y, "b")]
  }

  /** The lane `a` is complete; the status of the lane `b` is given. */
  function Inventory(x: string, y: string, status: string): seq<ChannelRow> {
    [Lane("a", "COMPLETED", x), Lane("b", status, y)]
  }

  /** Malformed output in the lane: what could be parsed of it is still observed. */
  const PARTIAL := "INVALID_EVIDENCE"

  const BOTH := ["a", "b"]

  /** Two findings, one for each lane. */
  const APART := Snapshot([Issue("f", ["x"], ["a"]), Issue("g", ["y"], ["b"])], [], Observed("x", "y"), Inventory("x", "y", "COMPLETED"), 2, 2, 2, Gate([], false))

  /** A later run of both lanes, the second partial, in which both support one finding; its observation ids are new. */
  const TOGETHER := Snapshot([Issue("h", ["u", "v"], ["a", "b"])], [], Observed("u", "v"), Inventory("u", "v", PARTIAL), 2, 1, 2, Gate([], false))

  const WORLD := World(id => if id == "x" || id == "u" then "a" else "b", name => name, sid => false)

  lemma FlatTwo(a: seq<string>, b: seq<string>)
    ensures Flatten([a, b]) == a + b
    ensures Flatten([a]) == a
  {
    FlattenAppend([], a);
    FlattenAppend([a], b);
    assert [] + [a] == [a] && [a] + [b] == [a, b];
    assert Flatten([]) + a == a;
  }

  lemma InventoryAccounts(s: Snapshot, x: string, y: string, status: string)
    requires x != y && s.observations == Observed(x, y) && s.channels == Inventory(x, y, status) && s.channelCount == 2 && s.observationCount == 2
    requires s.findingCount == |s.canonical| + |s.advisories|
    ensures ChannelsAccount(s) && Ids(s.observations) == [x, y] && NoDup(ChannelNames(s.channels))
  {
    assert Ids(s.observations) == [x, y];
    assert ChannelIds(s.channels) == [[x], [y]];
    FlatTwo([x], [y]);
    assert [x] + [y] == [x, y];
    assert ChannelNames(s.channels) == ["a", "b"];
  }

  lemma Letters()
    ensures "x" != "y" && "u" != "v" && "u" != "x" && "v" != "x" && "u" != "y" && "v" != "y" && "f" != "g"
  {
    assert "f"[0] == 'f' && "g"[0] == 'g';
    assert "x"[0] == 'x' && "y"[0] == 'y' && "u"[0] == 'u' && "v"[0] == 'v';
  }

  lemma PartsOfTwo(x: string, y: string)
    requires x != y
    ensures Partitions([[x], [y]], [x, y]) && Partitions([[x, y]], [x, y])
  {
    FlatTwo([x], [y]);
    FlatTwo([x, y], []);
    assert [x] + [y] == [x, y];
  }

  lemma CanonicalOnly(s: Snapshot)
    requires s.advisories == [] && ChannelsAccount(s) && NoDup(Ids(s.observations)) && NoDup(StableIds(s.canonical))
    requires Partitions(FindingIds(s.canonical), Ids(s.observations))
    requires forall i :: 0 <= i < |s.canonical| ==> FamiliesOf(s.canonical[i], s.observations)
    ensures Accounts(s)
  {
    assert AllFindings(s) == s.canonical;
  }

  lemma TwoFindingsAccount(s: Snapshot, f: string, g: string, x: string, y: string)
    requires x != y && f != g && ChannelsAccount(s) && s.observations == Observed(x, y) && Ids(s.observations) == [x, y]
    requires s.canonical == [Issue(f, [x], ["a"]), Issue(g, [y], ["b"])] && s.advisories == []
    ensures Accounts(s)
  {
    assert StableIds(s.canonical) == [f, g];
    assert FindingIds(s.canonical) == [[x], [y]];
    PartsOfTwo(x, y);
    FamilyOne(s.canonical[0], x, y);
    FamilyOne(s.canonical[1], x, y);
    CanonicalOnly(s);
  }

  lemma OneFindingAccounts(s: Snapshot, f: string, x: string, y: string)
    requires x != y && ChannelsAccount(s) && s.observations == Observed(x, y) && Ids(s.observations) == [x, y]
    requires s.canonical == [Issue(f, [x, y], ["a", "b"])] && s.advisories == []
    ensures Accounts(s)
  {
    assert StableIds(s.canonical) == [f];
    assert FindingIds(s.canonical) == [[x, y]];
    PartsOfTwo(x, y);
    FamilyOne(s.canonical[0], x, y);
    CanonicalOnly(s);
  }

  lemma ApartAccounts()
    ensures Accounts(APART)
  {
    Letters();
    InventoryAccounts(APART, "x", "y", "COMPLETED");
    TwoFindingsAccount(APART, "f", "g", "x", "y");
  }

  lemma FamilyOne(f: Finding, x: string, y: string)
    requires x != y
    requires (f.observationIds == [x] && f.families == ["a"]) || (f.observationIds == [y] && f.families == ["b"])
          || (f.observationIds == [x, y] && f.families == ["a", "b"])
    ensures FamiliesOf(f, Observed(x, y))
  {
    assert Observed(x, y)[0] == Evidence(x, "a") && Observed(x, y)[1] == Evidence(y, "b");
  }

  lemma TogetherAccounts()
    ensures Accounts(TOGETHER)
  {
    Letters();
    InventoryAccounts(TOGETHER, "u", "v", PARTIAL);
    OneFindingAccounts(TOGETHER, "h", "u", "v");
  }

  lemma InventoryRespects(x: string, y: string, status: string)
    requires WORLD.family(x) == "a" && WORLD.family(y) == "b"
    ensures forall row :: row in Inventory(x, y, status) ==> RowRespects(WORLD, row)
    ensures forall o :: o in Observed(x, y) ==> o.family == WORLD.family(o.observationId) && o.family != ""
  {
    assert forall row :: row in Inventory(x, y, status) ==> row == Lane("a", "COMPLETED", x) || row == Lane("b", status, y);
    assert forall o :: o in Observed(x, y) ==> o == Evidence(x, "a") || o == Evidence(y, "b");
  }

  lemma BothRespect()
    ensures Respects(WORLD, APART) && Respects(WORLD, TOGETHER)
  {
    Letters();
    InventoryRespects("x", "y", "COMPLETED");
    InventoryRespects("u", "v", PARTIAL);
  }

  lemma BothReady()
    ensures Ready(WORLD, APART, TOGETHER)
  {
    ApartAccounts();
    TogetherAccounts();
    BothRespect();
    AccountsKeyed(APART);
    AccountsKeyed(TOGETHER);
  }

  lemma PartialIsIncomplete()
    ensures !StatusContract.IsComplete(PARTIAL)
  {
    PartialSpelled(PARTIAL);
    StatusContract.NormalizeSame(PARTIAL);
    StatusContract.OtherLength(PARTIAL);
  }

  lemma PartialSpelled(s: string)
    requires s == PARTIAL
    ensures StatusContract.Capitals(s) && |s| == 16
  {
  }

  /** Both lanes are selected, and only the complete one is replaced. */
  lemma OneLane()
    requires Keyed(TOGETHER)
    ensures Lanes(TOGETHER, BOTH) == {"a"}
  {
    var rows := RowsByName(TOGETHER.channels);
    assert ChannelNames(TOGETHER.channels)[0] == "a" && ChannelNames(TOGETHER.channels)[1] == "b";
    assert rows["a"] in TOGETHER.channels && rows["a"].status == "COMPLETED";
    assert rows["b"] in TOGETHER.channels && rows["b"].status == PARTIAL;
    StatusContract.CompletedIsComplete();
    PartialIsIncomplete();
    OneReplaced(rows, "a", "b");
  }

  lemma OneReplaced(rows: map<string, ChannelRow>, c: string, d: string)
    requires c in rows && StatusContract.IsComplete(rows[c].status)
    requires d in rows && !StatusContract.IsComplete(rows[d].status)
    ensures Replaced(rows, [c, d]) == {c}
  {
  }

  lemma LaneIsLost()
    requires Keyed(APART) && Keyed(TOGETHER)
    ensures "a" in LostFamilies(APART, TOGETHER, BOTH)
  {
    OneLane();
    var rows := RowsByName(TOGETHER.channels);
    assert ChannelNames(TOGETHER.channels)[0] == "a";
    assert rows["a"] in TOGETHER.channels && rows["a"].name == "a";
  }

  lemma DragsIn(families: set<string>)
    requires "a" in families
    ensures IncomingHolds(AllFindings(TOGETHER), families, "h", "v")
  {
    var f := Issue("h", ["u", "v"], ["a", "b"]);
    assert AllFindings(TOGETHER) == [f] && f.families[0] in families;
    assert Incoming(AllFindings(TOGETHER), families, f);
  }

  lemma NotHeldBefore()
    ensures !Holds(AllFindings(APART), "h", "v")
  {
    assert AllFindings(APART) == APART.canonical;
    forall f | f in AllFindings(APART) ensures f.stableId != "h" {
      assert f == Issue("f", ["x"], ["a"]) || f == Issue("g", ["y"], ["b"]);
      assert "f"[0] == 'f' && "g"[0] == 'g' && "h"[0] == 'h';
    }
  }

  lemma NotOwned()
    requires Keyed(TOGETHER)
    ensures !Owned(WORLD, TOGETHER, BOTH, "v")
  {
    OneLane();
    Letters();
    assert "b"[0] == 'b' && "a"[0] == 'a';
  }

  /** Both reports are accounted for and both lanes are selected. The partial lane `b` is not replaced, but the
      finding that comes in with the lane `a` names a new observation of it: the merged finding refers to nothing. */
  lemma MixedFindingBreaksAccounting()
    ensures Ready(WORLD, APART, TOGETHER)
    ensures !Accounts(MergeSnapshots(APART, TOGETHER, BOTH))
  {
    BothReady();
    LaneIsLost();
    DragsIn(LostFamilies(APART, TOGETHER, BOTH));
    NotOwned();
    NotHeldBefore();
    MergeAccounts.MergeAccountsExact(WORLD, APART, TOGETHER, BOTH);
  }
}
