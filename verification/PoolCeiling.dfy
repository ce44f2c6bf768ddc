// The ceiling on a pool is not kept: a run in which a cold start slips in while the tick awaits an earlier claim. When
// the tick comes to its next claim it checks again whether the launcher is free, but not whether the pool is full.
module PoolCeiling {
  import opened Options
  import opened Catalog
  import opened Launchers
  import opened AllocationPlanner
  import opened PoolProtocol
  import opened Seqs

  // Two models that need several nodes, each with a ceiling of one pipeline.
  const BUSY: string := "busy"
  const CALM: string := "calm"
  const CATALOG: ModelCatalog := [CatalogEntry(BUSY, Some(2), Some(1)), CatalogEntry(CALM, Some(2), Some(1))]
  const WORLD: World := World(CATALOG, DriverOf, 0)

  // The node id of the agent that a launcher spawns.
  function DriverOf(l: LauncherInfo): string { "agent of " + l.endpoint }

  // A launcher for the busy model, and one for the other; the third registers only after the plan was made, when the
  // registration of the second has lapsed.
  const FIRST: LauncherInfo := LauncherInfo("a", "http://a", [BUSY], 1)
  const SECOND: LauncherInfo := LauncherInfo("b", "http://b", [CALM], 1)
  const THIRD: LauncherInfo := LauncherInfo("c", "http://c", [CALM], 1)
  const NODES: set<string> := {"x", "y"}
  const TRUSTED: set<string> := NODES + {DriverOf(FIRST), DriverOf(SECOND), DriverOf(THIRD)}
  const EARLY: View := View(NODES, TRUSTED, [FIRST, SECOND], Some(["y"]), 0)
  const LATE: View := View(NODES, TRUSTED, [FIRST, THIRD], Some(["y"]), 0)

  const DEMAND: map<string, nat> := map[BUSY := 1]
  const CLAIMS: seq<PipelineClaim> := [PipelineClaim(BUSY, FIRST), PipelineClaim(CALM, SECOND)]

  const STARTED: State := INITIAL.(tick := Checking([BUSY, CALM], "", [], NODES, 0))
  const HALFWAY: State := INITIAL.(tick := Checking([CALM], BUSY, [], NODES, 0))
  const CHECKED: State := INITIAL.(tick := Checking([], CALM, [], NODES, 0))
  const PLANNED: State := INITIAL.(tick := Allocating(CLAIMS, {}))

  function Reserved(l: LauncherInfo): Entry {
    Entry("", [], l.launcherId, l.endpoint, Assembling, 0)
  }

  lemma {:induction false} CatalogFacts()
    ensures MultiPipelineModelIds(CATALOG) == [BUSY, CALM]
    ensures MaxPipelines(CATALOG, BUSY) == 1 && RequiredNodeCount(CATALOG, BUSY) == 2
    ensures MaxPipelines(CATALOG, CALM) == 1 && RequiredNodeCount(CATALOG, CALM) == 2
  {
    assert BUSY != CALM by {
      assert BUSY[0] == 'b' && CALM[0] == 'c';
    }
    assert CATALOG[1..] == [CATALOG[1]] && [CATALOG[1]][1..] == [];
    assert MultiPipelineModelIds([CATALOG[1]]) == [CALM] + MultiPipelineModelIds([]);
    assert FindEntry([CATALOG[1]], CALM) == Some(CATALOG[1]);
  }

  lemma {:induction false} Listings()
    ensures ListForModel([FIRST, SECOND], BUSY) == [FIRST] && ListForModel([FIRST, SECOND], CALM) == [SECOND]
    ensures ListForModel([FIRST, THIRD], CALM) == [THIRD]
  {
    assert BUSY[0] == 'b' && CALM[0] == 'c';
    assert [FIRST, SECOND][1..] == [SECOND] && [SECOND][1..] == [];
    assert [FIRST, THIRD][1..] == [THIRD] && [THIRD][1..] == [];
    assert ListForModel([SECOND], BUSY) == [] + ListForModel([], BUSY);
    assert ListForModel([SECOND], CALM) == [SECOND] + ListForModel([], CALM);
    assert ListForModel([THIRD], CALM) == [THIRD] + ListForModel([], CALM);
  }

  // ---------------------------------------------------------------- the tick makes its plan

  lemma {:induction false} PlanFollows(snapshots: seq<PoolDemandSnapshot>)
    requires snapshots == [PoolDemandSnapshot(BUSY, 1, 0, 1), PoolDemandSnapshot(CALM, 0, 0, 1)]
    ensures PlanOf(snapshots, LaunchersFor(EARLY.launchers), {}) == CLAIMS
  {
    var busy, calm := snapshots[0], snapshots[1];
    assert snapshots[1..] == [calm] && [calm][1..] == [];
    assert UnderProvisioned([calm]) == [calm] + UnderProvisioned([]);
    assert UnderProvisioned(snapshots) == [busy] + [calm] == snapshots;
    assert SortByDemand([calm]) == InsertByDemand(calm, SortByDemand([])) == [calm];
    assert SortByDemand(snapshots) == InsertByDemand(busy, [calm]) == [busy] + [calm];
    Listings();
    assert [FIRST][1..] == [] && [SECOND][1..] == [];
    var turn := FillFrom(BUSY, 1, [FIRST], {});
    assert turn == [CLAIMS[0]] + FillFrom(BUSY, 0, [], {} + Names(FIRST)) == [CLAIMS[0]];
    assert [CLAIMS[0]][..0] == [];
    assert ClaimedNames(turn) == ClaimedNames([]) + Names(FIRST);
    assert {} + ClaimedNames(turn) == Names(FIRST);
    assert !IsLauncherClaimed(Names(FIRST), SECOND) by {
      assert "a"[0] == 'a' && "b"[0] == 'b' && |"http://a"| == 8 && |"http://b"| == 8
        && "http://a"[7] == 'a' && "http://b"[7] == 'b';
    }
    assert FillFrom(CALM, 1, [SECOND], Names(FIRST))
        == [CLAIMS[1]] + FillFrom(CALM, 0, [], Names(FIRST) + Names(SECOND)) == [CLAIMS[1]];
    assert PlanFrom([calm], LaunchersFor(EARLY.launchers), Names(FIRST))
        == [CLAIMS[1]] + PlanFrom([], LaunchersFor(EARLY.launchers), Names(FIRST) + ClaimedNames([CLAIMS[1]]));
  }

  lemma {:induction false} PlanIsPossible()
    ensures Leads(WORLD, CHECKED, Plan(EARLY, DEMAND, 1.0, CLAIMS), PLANNED)
  {
    hide PlanOf, DesiredPipelineCount;
    CatalogFacts();
    var d0 := DesiredPipelineCount(1, 1, 2, 1.0);
    var d1 := DesiredPipelineCount(0, 1, 2, 1.0);
    assert BUSY[0] == 'b' && CALM[0] == 'c';
    assert [BUSY, CALM][1..] == [CALM] && [CALM][1..] == [];
    assert Pool(CHECKED.pools, BUSY) == [] && Pool(CHECKED.pools, CALM) == [];
    var snapshots := Snapshots(WORLD, CHECKED, [BUSY, CALM], DEMAND, 1.0);
    assert Snapshots(WORLD, CHECKED, [CALM], DEMAND, 1.0)
        == [PoolDemandSnapshot(CALM, 0, 0, d1)] + Snapshots(WORLD, CHECKED, [], DEMAND, 1.0);
    assert snapshots == [PoolDemandSnapshot(BUSY, 1, 0, d0)] + [PoolDemandSnapshot(CALM, 0, 0, d1)];
    assert ClaimedLauncherIds(WORLD, CHECKED, None) == {};
    PlanFollows(snapshots);
  }

  lemma {:induction false} TickChecks()
    ensures Leads(WORLD, INITIAL, BeginTick(EARLY), STARTED)
    ensures Leads(WORLD, STARTED, CheckNext(EARLY), HALFWAY)
    ensures Leads(WORLD, HALFWAY, CheckNext(EARLY), CHECKED)
  {
    CatalogFacts();
    assert [BUSY, CALM][1..] == [CALM] && [CALM][1..] == [];
    assert Pool(INITIAL.pools, BUSY) == [] && Pool(INITIAL.pools, CALM) == [];
  }

  // ---------------------------------------------------------------- its first claim, and a cold start meanwhile

  lemma {:induction false} FirstCommit() returns (s: State)
    ensures Leads(WORLD, PLANNED, Commit(EARLY), s)
    ensures s.pools == map[BUSY := [0]] && s.entries == map[0 := Reserved(FIRST)] && s.coldStarts == map[]
        && s.nextId == 1
    ensures s.tick == Awaiting(CLAIMS[0], 0, ["y"], [CLAIMS[1]], {})
  {
    CatalogFacts();
    assert CLAIMS[1..] == [CLAIMS[1]];
    assert ClaimedLauncherIds(WORLD, PLANNED, None) == {};
    assert Pool(PLANNED.pools, BUSY) == [] && [] + [0] == [0];
    s := Apply(WORLD, PLANNED, Commit(EARLY));
  }

  lemma {:induction false} ColdStartSlipsIn(s: State) returns (s': State)
    requires s.pools == map[BUSY := [0]] && s.entries == map[0 := Reserved(FIRST)] && s.coldStarts == map[]
        && s.nextId == 1
    requires s.tick == Awaiting(CLAIMS[0], 0, ["y"], [CLAIMS[1]], {})
    ensures Leads(WORLD, s, BeginColdStart(CALM, LATE), s')
    ensures s'.pools == map[BUSY := [0], CALM := [1]] && s'.entries == map[0 := Reserved(FIRST), 1 := Reserved(THIRD)]
    ensures s'.coldStarts == map[CALM := ColdStart(1, THIRD, None, ["y"], Posting)] && s'.nextId == 2
        && s'.tick == s.tick
  {
    CatalogFacts();
    assert BUSY[0] == 'b' && CALM[0] == 'c';
    assert Refs(s) by {
      assert forall m, id :: Live(s.pools, m, id) ==> m == BUSY && id == 0;
    }
    assert Pool(s.pools, CALM) == [] && [] + [1] == [1];
    OthersAreFree(s, Reserved(FIRST), 0, THIRD);
    Listings();
    assert FirstFree([THIRD], ClaimedLauncherIds(WORLD, s, None)) == Some(THIRD);
    assert ColdChoice(WORLD, s, CALM, LATE) == Some(THIRD);
    s' := Apply(WORLD, s, BeginColdStart(CALM, LATE));
  }

  // One entry in all pools claims nothing but its own launcher.
  lemma {:induction false} OthersAreFree(s: State, e: Entry, only: Uid, l: LauncherInfo)
    requires Refs(s) && (forall m, id :: Live(s.pools, m, id) ==> id == only && s.entries[id] == e)
    requires l.launcherId !in EntryNames(e) && l.endpoint !in EntryNames(e)
    ensures !IsLauncherClaimed(ClaimedLauncherIds(WORLD, s, None), l)
  {
    forall n | n in ClaimedLauncherIds(WORLD, s, None) ensures n in EntryNames(e) {
      var m, id :| m in MultiPipelineModelIds(CATALOG) && Live(s.pools, m, id) && n in EntryNames(s.entries[id]);
    }
  }

  // ---------------------------------------------------------------- the first claim fails, the second comes late

  lemma {:induction false} FirstClaimFails(s: State) returns (s': State)
    requires s.pools == map[BUSY := [0], CALM := [1]] && s.entries == map[0 := Reserved(FIRST), 1 := Reserved(THIRD)]
    requires s.coldStarts == map[CALM := ColdStart(1, THIRD, None, ["y"], Posting)] && s.nextId == 2
    requires s.tick == Awaiting(CLAIMS[0], 0, ["y"], [CLAIMS[1]], {})
    ensures Leads(WORLD, s, SettleClaim(false, 0), s')
    ensures s'.pools == map[BUSY := [], CALM := [1]] && s'.entries == s.entries && s'.coldStarts == s.coldStarts
        && s'.nextId == 2
    ensures s'.tick == Allocating([CLAIMS[1]], {BUSY})
  {
    hide TickSettle, Refs;
    BothAreStored(s);
    FailedClaim(s);
    s' := Apply(WORLD, s, SettleClaim(false, 0));
  }

  lemma {:induction false} BothAreStored(s: State)
    requires s.pools == map[BUSY := [0], CALM := [1]] && s.entries == map[0 := Reserved(FIRST), 1 := Reserved(THIRD)]
    requires s.coldStarts == map[CALM := ColdStart(1, THIRD, None, ["y"], Posting)]
    requires s.tick.Awaiting? && s.tick.reservation == 0
    ensures Refs(s)
  {
    assert forall m, id :: Live(s.pools, m, id) ==> id in s.entries;
  }

  lemma {:induction false} FailedClaim(s: State)
    requires s.pools == map[BUSY := [0], CALM := [1]] && s.tick == Awaiting(CLAIMS[0], 0, ["y"], [CLAIMS[1]], {})
    ensures var s' := TickSettle(WORLD, s, false, 0);
            && s'.pools == map[BUSY := [], CALM := [1]] && s'.entries == s.entries && s'.coldStarts == s.coldStarts
            && s'.nextId == s.nextId && s'.tick == Allocating([CLAIMS[1]], {BUSY})
  {
    assert BUSY[0] == 'b' && CALM[0] == 'c';
    assert Without([0], 0) == [0][1..] == [];
    assert s.pools[BUSY := []] == map[BUSY := [], CALM := [1]];
  }

  lemma {:induction false} SecondCommit(s: State) returns (s': State)
    requires s.pools == map[BUSY := [], CALM := [1]] && s.entries == map[0 := Reserved(FIRST), 1 := Reserved(THIRD)]
    requires s.coldStarts == map[CALM := ColdStart(1, THIRD, None, ["y"], Posting)] && s.nextId == 2
    requires s.tick == Allocating([CLAIMS[1]], {BUSY})
    ensures Leads(WORLD, s, Commit(LATE), s') && Pool(s'.pools, CALM) == [1, 2] && s'.coldStarts == s.coldStarts
  {
    hide ColdBegin, ColdSettle, ColdFinish, TickSettle, TickTornDown, TickCheck, ForwardFailed, Handle, IsPlan;
    CatalogFacts();
    assert BUSY[0] == 'b' && CALM[0] == 'c';
    assert forall m, id :: Live(s.pools, m, id) ==> m == CALM && id == 1;
    OthersAreFree(s, Reserved(THIRD), 1, SECOND);
    assert [1] + [2] == [1, 2];
    s' := Apply(WORLD, s, Commit(LATE));
  }

  lemma {:induction false} ViewsArePlausible()
    ensures Plausible(WORLD, EARLY, BUSY) && Plausible(WORLD, LATE, CALM)
  {
    CatalogFacts();
    assert "x"[0] != "y"[0];
    assert NODES == {"x"} + {"y"} && |NODES| == 2;
  }

  // A pool of two under a ceiling of one and with nothing being replaced, in a run from empty pools in which the
  // tick's stretches between two awaits are left whole.
  lemma {:induction false} CeilingCanBeExceeded() returns (run: seq<State>, labels: seq<Step>)
    ensures IsRun(WORLD, run, labels) && Atomic(run, labels) && PlausibleRun(WORLD, run, labels)
    ensures var last := run[|run| - 1];
            |Pool(last.pools, CALM)| == 2 && MaxPipelines(WORLD.catalog, CALM) == 1
            && CALM in last.coldStarts && last.coldStarts[CALM].tracked == None
  {
    hide Possible, Apply, Plausible, DriverOf, RequiredNodeCount, MultiPipelineModelIds;
    CatalogFacts();
    TickChecks();
    PlanIsPossible();
    var s5 := FirstCommit();
    var s6 := ColdStartSlipsIn(s5);
    var s7 := FirstClaimFails(s6);
    var s8 := SecondCommit(s7);
    ViewsArePlausible();
    run := [INITIAL, STARTED, HALFWAY, CHECKED, PLANNED, s5, s6, s7, s8];
    labels := [BeginTick(EARLY), CheckNext(EARLY), CheckNext(EARLY), Plan(EARLY, DEMAND, 1.0, CLAIMS), Commit(EARLY),
               BeginColdStart(CALM, LATE), SettleClaim(false, 0), Commit(LATE)];
    assert forall i :: 0 <= i < |labels| ==> Leads(WORLD, run[i], labels[i], run[i + 1]);
  }
}
