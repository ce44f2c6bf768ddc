// A warm entry whose agent was stopped by the very cold start that started it. A launcher whose registration lapsed
// comes back under a new id on the same endpoint; the cold start that replaces its stale entry takes the old id for
// another machine and stops "the old launcher" after the new agent is up.
module PoolRotation {
  import opened Options
  import opened Catalog
  import opened Launchers
  import opened PoolProtocol
  import opened PoolMachines
  import opened Seqs

  const MODEL: string := "m"
  const HOST: string := "http://host"
  const CATALOG: ModelCatalog := [CatalogEntry(MODEL, Some(2), Some(1))]
  // The node id of the host's agent.
  const DRIVER: string := "agent"
  const WORLD: World := World(CATALOG, (l: LauncherInfo) => DRIVER, 0)
  const BEFORE: LauncherInfo := LauncherInfo("old", HOST, [MODEL], 1)
  const AFTER: LauncherInfo := LauncherInfo("new", HOST, [MODEL], 1)

  const NODES: set<string> := {"x", "y"}

  // The driver is trusted, but its registration has lapsed when the second cold start looks.
  function Seen(l: LauncherInfo): View {
    View(NODES, NODES + {DRIVER}, [l], Some(["y"]), 0)
  }

  function Reserved(l: LauncherInfo): Entry {
    Entry("", [], l.launcherId, l.endpoint, Assembling, 0)
  }

  function Ready(l: LauncherInfo): Entry {
    Entry(DRIVER, ["y"], l.launcherId, l.endpoint, Warm, 0)
  }

  const ONE: State := State(
    map[MODEL := [0]], map[0 := Reserved(BEFORE)], map[MODEL := ColdStart(0, BEFORE, None, ["y"], Posting)], Idle,
    map[HOST := Machine([Post(MODEL, 0)], None)], {}, 1)

  const TWO: State := ONE.(machines := map[HOST := Machine([], Some(MODEL))], replies := {0})

  const THREE: State := State(
    map[MODEL := [1]], map[0 := Reserved(BEFORE), 1 := Ready(BEFORE)], map[], Idle,
        map[HOST := Machine([], Some(MODEL))], {0}, 2)

  const FOUR: State := State(
    map[MODEL := [1, 2]], map[0 := Reserved(BEFORE), 1 := Ready(BEFORE), 2 := Reserved(AFTER)],
    map[MODEL := ColdStart(2, AFTER, Some(1), ["y"], Posting)], Idle,
    map[HOST := Machine([Post(MODEL, 2)], Some(MODEL))], {0}, 3)

  const FIVE: State := FOUR.(machines := map[HOST := Machine([], Some(MODEL))], replies := {0, 2})

  const SIX: State := FIVE.(
    coldStarts := map[MODEL := ColdStart(2, AFTER, Some(1), ["y"], Stopping)],
    machines := map[HOST := Machine([Delete], Some(MODEL))])

  const SEVEN: State := SIX.(machines := map[HOST := Machine([], None)])

  const EIGHT: State := State(
    map[MODEL := [3]], map[0 := Reserved(BEFORE), 1 := Ready(BEFORE), 2 := Reserved(AFTER), 3 := Ready(AFTER)],
        map[], Idle,
    map[HOST := Machine([], None)], {0, 2}, 4)

  lemma {:induction false} CatalogFacts()
    ensures MultiPipelineModelIds(CATALOG) == [MODEL] && MaxPipelines(CATALOG, MODEL) == 1
        && RequiredNodeCount(CATALOG, MODEL) == 2
  {
  }

  lemma {:induction false} OnlyOne(l: LauncherInfo)
    requires MODEL in l.servesModels
    ensures ListForModel([l], MODEL) == [l]
  {
    assert [l][1..] == [];
  }

  lemma {:induction false} FirstColdStart()
    ensures Leads(WORLD, INITIAL, BeginColdStart(MODEL, Seen(BEFORE)), ONE)
  {
    hide ColdSettle, TickCommit, TickSettle, TickTornDown, TickCheck, ForwardFailed, Handle, IsPlan;
    CatalogFacts();
    OnlyOne(BEFORE);
    assert Pool(INITIAL.pools, MODEL) == [] && [] + [0] == [0];
    assert ClaimedLauncherIds(WORLD, INITIAL, None) == {};
    assert FirstFree([BEFORE], {}) == Some(BEFORE);
    assert ColdChoice(WORLD, INITIAL, MODEL, Seen(BEFORE)) == Some(BEFORE);
    assert [] + [Post(MODEL, 0)] == [Post(MODEL, 0)];
  }

  lemma {:induction false} FirstAnswer()
    ensures Leads(WORLD, ONE, LauncherHandles(HOST, Started), TWO)
  {
    hide ColdBegin, ColdSettle, TickCommit, TickSettle, TickTornDown, TickCheck, ForwardFailed, IsPlan;
    assert forall m, id :: Live(ONE.pools, m, id) ==> id == 0;
    assert [Post(MODEL, 0)][1..] == [];
  }

  lemma {:induction false} FirstFinish()
    ensures Leads(WORLD, TWO, SettleColdStart(MODEL, true, Seen(BEFORE)), THREE)
  {
    hide ColdBegin, TickCommit, TickSettle, TickTornDown, TickCheck, ForwardFailed, Handle, IsPlan;
    assert forall m, id :: Live(TWO.pools, m, id) ==> id == 0;
    assert Without([0], 0) == [0][1..] == [] && [] + [1] == [1];
    assert TWO.coldStarts - {MODEL} == map[];
  }

  lemma {:induction false} SecondChoice()
    ensures Refs(THREE) && ColdChoice(WORLD, THREE, MODEL, Seen(AFTER)) == Some(AFTER)
  {
    CatalogFacts();
    OnlyOne(AFTER);
    assert forall m, id :: Live(THREE.pools, m, id) ==> m == MODEL && id == 1;
    assert ClaimedLauncherIds(WORLD, THREE, Some(1)) == {};
    assert FirstFree([AFTER], {}) == Some(AFTER);
  }

  lemma {:induction false} SecondColdStart()
    ensures Leads(WORLD, THREE, BeginColdStart(MODEL, Seen(AFTER)), FOUR)
  {
    hide ColdSettle, TickCommit, TickSettle, TickTornDown, TickCheck, ForwardFailed, Handle, IsPlan, ColdChoice;
    CatalogFacts();
    SecondChoice();
    hide Refs;
    assert Pool(THREE.pools, MODEL) == [1] && [1] + [2] == [1, 2];
    assert [] + [Post(MODEL, 2)] == [Post(MODEL, 2)];
  }

  lemma {:induction false} SecondAnswer()
    ensures Leads(WORLD, FOUR, LauncherHandles(HOST, Started), FIVE)
  {
    hide ColdBegin, ColdSettle, TickCommit, TickSettle, TickTornDown, TickCheck, ForwardFailed, IsPlan;
    assert forall m, id :: Live(FOUR.pools, m, id) ==> id == 1 || id == 2;
    assert [Post(MODEL, 2)][1..] == [];
  }

  lemma {:induction false} StopGoesToHost()
    ensures StopLauncher(FIVE, [AFTER], Ready(BEFORE)) == FIVE.(machines := map[HOST := Machine([Delete], Some(MODEL))])
  {
    assert "old"[0] == 'o' && "new"[0] == 'n';
    assert [AFTER][1..] == [] && EndpointOf([AFTER], "old") == EndpointOf([], "old") == None;
    assert HOST[0] == 'h' && [] + [Delete] == [Delete];
  }

  lemma {:induction false} StopIsSent()
    ensures Leads(WORLD, FIVE, SettleColdStart(MODEL, true, Seen(AFTER)), SIX)
  {
    hide StopLauncher, ColdFinish, ColdBegin, TickCommit, TickSettle, TickTornDown, TickCheck, ForwardFailed, IsPlan;
    assert forall m, id :: Live(FIVE.pools, m, id) ==> id == 1 || id == 2;
    assert "old"[0] == 'o' && "new"[0] == 'n';
    StopGoesToHost();
  }

  lemma {:induction false} SixRefs()
    ensures Refs(SIX)
  {
    assert forall m, id :: Live(SIX.pools, m, id) ==> id == 1 || id == 2;
  }

  lemma {:induction false} StopIsHandled()
    ensures Leads(WORLD, SIX, LauncherHandles(HOST, Rejected), SEVEN)
  {
    hide ColdBegin, ColdSettle, TickCommit, TickSettle, TickTornDown, TickCheck, ForwardFailed, IsPlan, Refs;
    SixRefs();
    assert MachineAt(SIX.machines, HOST) == Machine([Delete], Some(MODEL));
    assert [Delete][1..] == [] && SIX.replies + {} == SIX.replies;
  }

  lemma {:induction false} SecondSwap()
    ensures ColdFinish(WORLD, SEVEN, MODEL, 0) == EIGHT
  {
    assert Without([1, 2], 1) == [1, 2][1..] == [2] && Without([2], 2) == [2][1..] == [] && [] + [3] == [3];
    assert SEVEN.coldStarts - {MODEL} == map[];
  }

  lemma {:induction false} SecondFinish()
    ensures Leads(WORLD, SEVEN, OldLauncherStopped(MODEL, Seen(AFTER)), EIGHT)
  {
    hide ColdFinish, ColdBegin, ColdSettle, TickCommit, TickSettle, TickTornDown, TickCheck, ForwardFailed, IsPlan;
    assert forall m, id :: Live(SEVEN.pools, m, id) ==> id == 1 || id == 2;
    SecondSwap();
  }

  lemma {:induction false} ViewsArePlausible(l: LauncherInfo)
    ensures Plausible(WORLD, Seen(l), MODEL)
  {
    CatalogFacts();
    assert "x"[0] != "y"[0];
    assert NODES == {"x"} + {"y"} && |NODES| == 2;
  }

  // Both POSTs are answered with a 200, no agent exits and no launcher restarts; still the pool ends with one warm
  // entry whose launcher runs nothing.
  lemma {:induction false} WarmWithoutAgent() returns (run: seq<State>, labels: seq<Step>)
    ensures IsRun(WORLD, run, labels) && Atomic(run, labels) && PlausibleRun(WORLD, run, labels)
    ensures forall i :: 0 <= i < |labels| ==> !labels[i].AgentExits? && !labels[i].LauncherRestarts?
    ensures var last := run[|run| - 1];
            && Pool(last.pools, MODEL) == [3] && 3 in last.entries && last.entries[3].state == Warm
            && AgentAt(last, last.entries[3].launcherEndpoint) == None
  {
    hide Possible, Apply;
    FirstColdStart();
    FirstAnswer();
    FirstFinish();
    SecondColdStart();
    SecondAnswer();
    StopIsSent();
    StopIsHandled();
    SecondFinish();
    ViewsArePlausible(BEFORE);
    ViewsArePlausible(AFTER);
    run := [INITIAL, ONE, TWO, THREE, FOUR, FIVE, SIX, SEVEN, EIGHT];
    labels := [BeginColdStart(MODEL, Seen(BEFORE)), LauncherHandles(HOST, Started),
               SettleColdStart(MODEL, true, Seen(BEFORE)),
               BeginColdStart(MODEL, Seen(AFTER)), LauncherHandles(HOST, Started),
               SettleColdStart(MODEL, true, Seen(AFTER)),
               LauncherHandles(HOST, Rejected), OldLauncherStopped(MODEL, Seen(AFTER))];
    assert forall i :: 0 <= i < |labels| ==> Leads(WORLD, run[i], labels[i], run[i + 1]);
  }
}
