// The coordinator's side of the pool protocol in the form the program has it: objects whose fields the request path
// and the background tick update in place. Every method is a stretch of code that awaits nothing, and its contract is
// the step of the protocol that it makes; where the tick runs on without an await, several methods follow one another.
module PoolCoordinator {
  import opened Options
  import opened Seqs
  import opened Catalog
  import opened Launchers
  import opened AllocationPlanner
  import opened PoolProtocol
  import opened PoolInvariant
  import opened PoolSteps

  // ---------------------------------------------------------------- coordinator/src/pipeline_tracker.ts

  class PipelineTracker {
    var pools: map<string, seq<Uid>>
    // The entry objects that pools, and code in flight, refer to.
    var entries: map<Uid, Entry>

    constructor ()
      ensures pools == map[] && entries == map[]
    {
      pools, entries := map[], map[];
    }

    method AddEntry(modelId: string, id: Uid, entry: Entry)
      modifies this
      ensures pools == old(pools)[modelId := Pool(old(pools), modelId) + [id]] && entries == old(entries)[id := entry]
    {
      if modelId in pools {
        pools := pools[modelId := pools[modelId] + [id]];
      } else {
        pools := pools[modelId := [id]];
        assert [] + [id] == [id];
      }
      entries := entries[id := entry];
    }

    method RemoveEntry(modelId: string, id: Uid)
      modifies this`pools
      ensures pools == if modelId in old(pools) then old(pools)[modelId := Without(old(pools)[modelId], id)]
          else old(pools)
    {
      if modelId !in pools {
        return;
      }
      var pool := pools[modelId];
      var index := 0;
      while index < |pool| && pool[index] != id
        invariant 0 <= index <= |pool| && id !in pool[..index]
      {
        index := index + 1;
      }
      WithoutAt(pool, id, index);
      if index < |pool| {
        pools := pools[modelId := pool[..index] + pool[index + 1..]];
      } else {
        assert pools == pools[modelId := pool];
      }
    }

    method MarkEntryFailed(modelId: string, id: Uid)
      requires id in entries
      modifies this`entries
      ensures entries == if Live(pools, modelId, id) then old(entries)[id := old(entries)[id].(state := Failed)]
          else old(entries)
    {
      var pool := Pool(pools, modelId);
      var k := 0;
      while k < |pool| && pool[k] != id
        invariant 0 <= k <= |pool| && id !in pool[..k]
      {
        k := k + 1;
      }
      if k < |pool| {
        entries := entries[id := entries[id].(state := Failed)];
      } else {
        assert pool[..k] == pool;
      }
    }
  }

  // findIndex and a one-element splice.
  lemma {:induction false} WithoutAt(s: seq<Uid>, x: Uid, k: nat)
    requires k <= |s| && x !in s[..k] && (k < |s| ==> s[k] == x)
    ensures Without(s, x) == if k < |s| then s[..k] + s[k + 1..] else s
  {
    if k > 0 {
      assert s[0] in s[..k];
      assert s[1..][..k - 1] == s[..k][1..];
      WithoutAt(s[1..], x, k - 1);
      assert s == [s[0]] + s[1..];
      if k < |s| {
        assert s[1..][k..] == s[k + 1..] && s[..k] == [s[0]] + s[1..][..k - 1];
      }
    }
  }

  // ---------------------------------------------------------------- launchers in use

  // The names of the launchers behind some entries, and behind the entries of some models.
  function NamesIn(entries: map<Uid, Entry>, ids: seq<Uid>, exclude: Option<Uid>): set<string>
    requires forall id :: id in ids ==> id in entries
  {
    set id, n | id in ids && exclude != Some(id) && n in EntryNames(entries[id]) :: n
  }

  ghost predicate AllStored(pools: map<string, seq<Uid>>, entries: map<Uid, Entry>) {
    forall m, id :: Live(pools, m, id) ==> id in entries
  }

  lemma {:induction false} PoolIsStored(pools: map<string, seq<Uid>>, entries: map<Uid, Entry>, m: string)
    requires AllStored(pools, entries)
    ensures forall id :: id in Pool(pools, m) ==> id in entries
  {
    forall id | id in Pool(pools, m) ensures id in entries {
      assert Live(pools, m, id);
    }
  }

  ghost function NamesOf(pools: map<string, seq<Uid>>, entries: map<Uid, Entry>, models: seq<string>,
      exclude: Option<Uid>): set<string>
    requires AllStored(pools, entries)
  {
    if models == [] then {}
    else
      var n := |models| - 1;
      PoolIsStored(pools, entries, models[n]);
      NamesOf(pools, entries, models[..n], exclude) + NamesIn(entries, Pool(pools, models[n]), exclude)
  }

  lemma {:induction false} NamesOfHas(
      pools: map<string, seq<Uid>>, entries: map<Uid, Entry>, models: seq<string>, exclude: Option<Uid>, m: string,
      id: Uid, n: string)
    requires AllStored(pools, entries) && m in models && Live(pools, m, id) && exclude != Some(id)
        && n in EntryNames(entries[id])
    ensures n in NamesOf(pools, entries, models, exclude)
  {
    var k := |models| - 1;
    PoolIsStored(pools, entries, models[k]);
    if m == models[k] {
      assert n in NamesIn(entries, Pool(pools, m), exclude);
    } else {
      NamesOfHas(pools, entries, models[..k], exclude, m, id, n);
    }
  }

  lemma {:induction false} NamesOfHasOnly(
      pools: map<string, seq<Uid>>, entries: map<Uid, Entry>, models: seq<string>, exclude: Option<Uid>, n: string)
    returns (m: string, id: Uid)
    requires AllStored(pools, entries) && n in NamesOf(pools, entries, models, exclude)
    ensures m in models && Live(pools, m, id) && exclude != Some(id) && n in EntryNames(entries[id])
  {
    var k := |models| - 1;
    PoolIsStored(pools, entries, models[k]);
    if n in NamesIn(entries, Pool(pools, models[k]), exclude) {
      m := models[k];
      id :| id in Pool(pools, m) && exclude != Some(id) && n in EntryNames(entries[id]);
    } else {
      m, id := NamesOfHasOnly(pools, entries, models[..k], exclude, n);
    }
  }

  lemma {:induction false} NamesOfIsClaimed(w: World, s: State, exclude: Option<Uid>)
    requires AllStored(s.pools, s.entries)
    ensures NamesOf(s.pools, s.entries, MultiPipelineModelIds(w.catalog), exclude) == ClaimedLauncherIds(w, s, exclude)
  {
    var models := MultiPipelineModelIds(w.catalog);
    forall n | n in NamesOf(s.pools, s.entries, models, exclude) ensures n in ClaimedLauncherIds(w, s, exclude) {
      var m, id := NamesOfHasOnly(s.pools, s.entries, models, exclude, n);
    }
    forall n | n in ClaimedLauncherIds(w, s, exclude) ensures n in NamesOf(s.pools, s.entries, models, exclude) {
      var m, id :| m in models && Live(s.pools, m, id) && exclude != Some(id) && n in EntryNames(s.entries[id]);
      NamesOfHas(s.pools, s.entries, models, exclude, m, id, n);
    }
  }

  lemma {:induction false} NamesInSnoc(entries: map<Uid, Entry>, ids: seq<Uid>, j: nat, exclude: Option<Uid>)
    requires j < |ids| && forall id :: id in ids ==> id in entries
    ensures NamesIn(entries, ids[..j + 1], exclude)
         == NamesIn(entries, ids[..j], exclude) + (if exclude == Some(ids[j]) then {} else EntryNames(entries[ids[j]]))
  {
  }

  // ---------------------------------------------------------------- the coordinator

  class Coordinator {
    const world: World
    const tracker: PipelineTracker
    var coldStarts: map<string, ColdStart>
    var tick: Tick
    var nextId: Uid
    // The network and the launchers behind it.
    var machines: map<string, Machine>
    ghost var replies: set<Uid>

    ghost function Now(): State
      reads this, tracker
    {
      State(tracker.pools, tracker.entries, coldStarts, tick, machines, replies, nextId)
    }

    constructor (w: World)
      ensures world == w && fresh(tracker) && Now() == INITIAL
    {
      world := w;
      tracker := new PipelineTracker();
      coldStarts, tick, nextId, machines, replies := map[], Idle, 0, map[], {};
    }

    method Send(endpoint: string, c: Command)
      modifies this`machines
      ensures Now() == PoolProtocol.Send(old(Now()), endpoint, c)
    {
      var mach := MachineAt(machines, endpoint);
      machines := machines[endpoint := mach.(queue := mach.queue + [c])];
    }

    // The names behind one pool, added to those found before.
    method AddNames(pool: seq<Uid>, exclude: Option<Uid>, found: set<string>) returns (claimed: set<string>)
      requires forall id :: id in pool ==> id in tracker.entries
      ensures claimed == found + NamesIn(tracker.entries, pool, exclude)
    {
      hide EntryNames;
      claimed := found;
      for j := 0 to |pool|
        invariant claimed == found + NamesIn(tracker.entries, pool[..j], exclude)
      {
        NamesInSnoc(tracker.entries, pool, j, exclude);
        if exclude != Some(pool[j]) {
          claimed := claimed + EntryNames(tracker.entries[pool[j]]);
        }
      }
      assert pool[..|pool|] == pool;
    }

    method ClaimedIds(exclude: Option<Uid>) returns (claimed: set<string>)
      requires AllStored(tracker.pools, tracker.entries)
      ensures claimed == ClaimedLauncherIds(world, Now(), exclude)
    {
      hide EntryNames, ClaimedLauncherIds, NamesIn, MultiPipelineModelIds;
      claimed := {};
      var models := MultiPipelineModelIds(world.catalog);
      for i := 0 to |models|
        invariant claimed == NamesOf(tracker.pools, tracker.entries, models[..i], exclude)
      {
        PoolIsStored(tracker.pools, tracker.entries, models[i]);
        claimed := AddNames(Pool(tracker.pools, models[i]), exclude, claimed);
        assert models[..i + 1][..i] == models[..i];
      }
      assert models[..|models|] == models;
      NamesOfIsClaimed(world, Now(), exclude);
    }

    // ---------------------------------------------------------------- the request path

    method AnyAssembling(pool: seq<Uid>) returns (any: bool)
      requires forall id :: id in pool ==> id in tracker.entries
      ensures any <==> exists id :: id in pool && tracker.entries[id].state == Assembling
    {
      for k := 0 to |pool|
        invariant forall j :: 0 <= j < k ==> tracker.entries[pool[j]].state != Assembling
      {
        if tracker.entries[pool[k]].state == Assembling {
          return true;
        }
      }
      return false;
    }

    method FindFree(launchers: seq<LauncherInfo>, model: string, claimed: set<string>) returns (l: Option<LauncherInfo>)
      ensures l == FirstFree(ListForModel(launchers, model), claimed)
    {
      assert launchers[0..] == launchers;
      for k := 0 to |launchers|
        invariant FirstFree(ListForModel(launchers, model), claimed)
            == FirstFree(ListForModel(launchers[k..], model), claimed)
      {
        assert launchers[k..][1..] == launchers[k + 1..];
        if model in launchers[k].servesModels && !IsLauncherClaimed(claimed, launchers[k]) {
          return Some(launchers[k]);
        }
        SkipLauncher(launchers[k..], model, claimed);
      }
      return None;
    }

    // What assemblePipeline decides before it reserves anything.
    method ChooseLauncher(model: string, v: View) returns (choice: Option<LauncherInfo>)
      requires Refs(Now()) && model !in coldStarts
      ensures choice == ColdChoice(world, Now(), model, v)
    {
      hide ClaimedLauncherIds, FirstFree, ListForModel, RequiredNodeCount, MaxPipelines;
      if RequiredNodeCount(world.catalog, model) <= 1 {
        return None;
      }
      var pool := Pool(tracker.pools, model);
      PoolIsStored(tracker.pools, tracker.entries, model);
      AssemblingInPool(Now(), model);
      var assembling := AnyAssembling(pool);
      if assembling {
        return None;
      }
      var tracked := if pool == [] then None else Some(pool[0]);
      if tracked.Some? {
        var e := tracker.entries[tracked.value];
        if e.state == Warm && e.driverNodeId in v.active {
          return None;
        }
      }
      if |pool| - (if tracked.Some? then 1 else 0) >= MaxPipelines(world.catalog, model) {
        return None;
      }
      var claimed := ClaimedIds(tracked);
      var launcher := FindFree(v.launchers, model, claimed);
      if launcher == None || v.selection == None || world.driverOf(launcher.value) !in v.trusted {
        return None;
      }
      return launcher;
    }

    method Reserve(model: string, l: LauncherInfo, now: int)
      modifies this, tracker
      ensures Now() == PoolProtocol.Reserve(old(Now()), model, l, now)
    {
      tracker.AddEntry(model, nextId, Entry("", [], l.launcherId, l.endpoint, Assembling, now));
      Send(l.endpoint, Post(model, nextId));
      nextId := nextId + 1;
    }

    // ensurePipelineReady, up to the POST.
    method EnsurePipelineReady(model: string, v: View)
      requires Possible(world, Now(), BeginColdStart(model, v))
      modifies this, tracker
      ensures Now() == Apply(world, old(Now()), BeginColdStart(model, v))
    {
      hide ColdChoice, PoolProtocol.Reserve;
      if model in coldStarts {
        InFlightIsNoChoice(world, Now(), model, v);
        return;
      }
      var choice := ChooseLauncher(model, v);
      if choice == None {
        return;
      }
      ghost var before := Now();
      var selection := if v.selection.Some? then v.selection.value else [];
      var pool := Pool(tracker.pools, model);
      var cold := ColdStart(nextId, choice.value, if pool == [] then None else Some(pool[0]), selection, Posting);
      Reserve(model, choice.value, v.now);
      ReserveLeaves(before, model, choice.value, v.now);
      coldStarts := coldStarts[model := cold];
    }

    method StopLauncher(launchers: seq<LauncherInfo>, e: Entry)
      modifies this`machines
      ensures Now() == PoolProtocol.StopLauncher(old(Now()), launchers, e)
    {
      hide PoolProtocol.Send;
      var endpoint := FindEndpoint(launchers, e.launcherId);
      var target := match endpoint case Some(x) => x case None => e.launcherEndpoint;
      if target == "" {
        return;
      }
      Send(target, Delete);
    }

    method FindEndpoint(launchers: seq<LauncherInfo>, launcherId: string) returns (endpoint: Option<string>)
      ensures endpoint == EndpointOf(launchers, launcherId)
    {
      assert launchers[0..] == launchers;
      for k := 0 to |launchers|
        invariant EndpointOf(launchers, launcherId) == EndpointOf(launchers[k..], launcherId)
      {
        assert launchers[k..][1..] == launchers[k + 1..];
        if launchers[k].launcherId == launcherId {
          return Some(launchers[k].endpoint);
        }
      }
      return None;
    }

    // The end of a cold start that worked, once any old launcher was told to stop.
    method FinishColdStart(model: string, now: int)
      requires Refs(Now()) && model in coldStarts
      modifies this, tracker
      ensures Now() == ColdFinish(world, old(Now()), model, now)
    {
      var c := coldStarts[model];
      if c.tracked.Some? {
        tracker.RemoveEntry(model, c.tracked.value);
      }
      tracker.RemoveEntry(model, c.reservation);
      var warm := Entry(world.driverOf(c.launcher), c.contributors, c.launcher.launcherId, c.launcher.endpoint, Warm,
          now);
      tracker.AddEntry(model, nextId, warm);
      nextId := nextId + 1;
      coldStarts := coldStarts - {model};
    }

    method FailColdStart(model: string)
      requires Refs(Now()) && model in coldStarts
      modifies this, tracker
      ensures forall v :: Now() == ColdSettle(world, old(Now()), model, false, v)
    {
      var c := coldStarts[model];
      tracker.RemoveEntry(model, c.reservation);
      if c.tracked.Some? {
        tracker.MarkEntryFailed(model, c.tracked.value);
      }
      coldStarts := coldStarts - {model};
    }

    // assemblePipeline from the answer to the POST on.
    method SettleColdStart(model: string, ok: bool, v: View)
      requires Possible(world, Now(), Step.SettleColdStart(model, ok, v))
      modifies this, tracker
      ensures Now() == Apply(world, old(Now()), Step.SettleColdStart(model, ok, v))
    {
      hide PoolProtocol.StopLauncher, ColdFinish;
      var c := coldStarts[model];
      if !ok {
        FailColdStart(model);
        return;
      }
      if c.tracked.Some? && tracker.entries[c.tracked.value].launcherId != c.launcher.launcherId {
        ghost var before := Now();
        StopLauncher(v.launchers, tracker.entries[c.tracked.value]);
        StopLeaves(before, v.launchers, before.entries[c.tracked.value]);
        coldStarts := coldStarts[model := c.(phase := Stopping)];
        return;
      }
      FinishColdStart(model, v.now);
    }

    method OldLauncherStopped(model: string, v: View)
      requires Possible(world, Now(), Step.OldLauncherStopped(model, v))
      modifies this, tracker
      ensures Now() == Apply(world, old(Now()), Step.OldLauncherStopped(model, v))
    {
      FinishColdStart(model, v.now);
    }

    // Every entry naming the driver, not just the first.
    method MarkDriverFailed(model: string, driver: string)
      requires Possible(world, Now(), FailForward(model, driver))
      modifies tracker
      ensures Now() == Apply(world, old(Now()), FailForward(model, driver))
    {
      var pool := Pool(tracker.pools, model);
      ghost var was := tracker.entries;
      PoolIsStored(tracker.pools, was, model);
      for k := 0 to |pool|
        invariant tracker.pools == old(tracker.pools)
        invariant tracker.entries == FailedAmong(was, pool[..k], driver)
      {
        assert pool[k] in was;
        ghost var before := tracker.entries;
        if tracker.entries[pool[k]].driverNodeId == driver {
          tracker.MarkEntryFailed(model, pool[k]);
        }
        FailedAmongSnoc(was, pool, k, driver);
        assert Live(tracker.pools, model, pool[k]);
      }
      assert pool[..|pool|] == pool;
      FailedAmongIsForwardFailed(old(Now()), model, driver);
    }

    // /generate's choice among the pool: the usable entry unused for longest, the earlier one on a tie.
    method PickLeastRecentlyUsed(model: string, active: set<string>, now: int) returns (picked: Option<Uid>)
      requires Refs(Now())
      modifies tracker`entries
      ensures forall id :: id in Pool(tracker.pools, model) ==> id in old(tracker.entries)
      // An entry is usable while it is warm and its driver is active; one is picked exactly when there is one.
      ensures picked == None
         <==> forall id :: id in Pool(tracker.pools, model) ==>
                !(old(tracker.entries)[id].state == Warm && old(tracker.entries)[id].driverNodeId in active)
      ensures picked.Some? ==>
                && picked.value in Pool(tracker.pools, model)
                && old(tracker.entries)[picked.value].state == Warm
                && old(tracker.entries)[picked.value].driverNodeId in active
      ensures match picked
              case None =>
                Now() == old(Now()) && forall id ::
                    id in Pool(tracker.pools, model) ==> !UsableEntry(tracker.entries[id], active)
              case Some(id) =>
                && Possible(world, old(Now()), Use(id, now)) && Now() == Apply(world, old(Now()), Use(id, now))
                && var pool := Pool(tracker.pools, model);
                   exists k: nat :: Oldest(old(tracker.entries), pool, active, |pool|, k) && pool[k] == id
    {
      var pool := Pool(tracker.pools, model);
      PoolIsStored(tracker.pools, tracker.entries, model);
      var best: Option<nat> := None;
      for k := 0 to |pool|
        invariant best.None? ==> forall j :: 0 <= j < k ==> !UsableEntry(tracker.entries[pool[j]], active)
        invariant best.Some? ==> Oldest(tracker.entries, pool, active, k, best.value)
      {
        var e := tracker.entries[pool[k]];
        if UsableEntry(e, active) {
          if best.None? || e.lastUsedAt < tracker.entries[pool[best.value]].lastUsedAt {
            best := Some(k);
          }
        }
      }
      if best.None? {
        return None;
      }
      var id := pool[best.value];
      Stamp(id, now);
      return Some(id);
    }

    // ---------------------------------------------------------------- the background tick

    // The timer fires; a tick still under way makes it do nothing.
    method TimerFires(v: View)
      requires Refs(Now())
      modifies this`tick
      ensures if old(tick).Idle? then Now() == Apply(world, old(Now()), BeginTick(v)) else Now() == old(Now())
    {
      if !tick.Idle? {
        return;
      }
      tick := Checking(MultiPipelineModelIds(world.catalog), "", [], v.active, v.now);
    }

    method CheckNext(v: View)
      requires Possible(world, Now(), Step.CheckNext(v))
      modifies this
      ensures Now() == Apply(world, old(Now()), Step.CheckNext(v))
    {
      hide PoolProtocol.StopLauncher;
      var t := tick;
      if t.todo == [] {
        tick := Checking(t.models[1..], t.models[0], Pool(tracker.pools, t.models[0]), t.active, t.now);
        return;
      }
      var id, rest := t.todo[0], t.todo[1..];
      var e := tracker.entries[id];
      if Condemned(Judge(e, t.active, t.now, world.idleGraceMs)) {
        ghost var before := Now();
        StopLauncher(v.launchers, e);
        StopLeaves(before, v.launchers, e);
        tick := TearingDown(id, t.models, t.model, rest, t.active, t.now);
      } else {
        tick := Checking(t.models, t.model, rest, t.active, t.now);
      }
    }

    method TornDown()
      requires Possible(world, Now(), Step.TornDown)
      modifies this, tracker
      ensures Now() == Apply(world, old(Now()), Step.TornDown)
    {
      var t := tick;
      tracker.RemoveEntry(t.model, t.victim);
      tick := Checking(t.models, t.model, t.todo, t.active, t.now);
    }

    // What the planner is told about every tracked model.
    method TakeSnapshots(demand: map<string, nat>, perPipeline: real) returns (snapshots: seq<PoolDemandSnapshot>)
      requires perPipeline > 0.0
      ensures snapshots == Snapshots(world, Now(), MultiPipelineModelIds(world.catalog), demand, perPipeline)
    {
      hide DesiredPipelineCount, MultiPipelineModelIds, MaxPipelines, RequiredNodeCount;
      var models := MultiPipelineModelIds(world.catalog);
      snapshots := [];
      for i := 0 to |models|
        invariant snapshots == Snapshots(world, Now(), models[..i], demand, perPipeline)
      {
        var m := models[i];
        var d := if m in demand then demand[m] else 0;
        var wanted := DesiredPipelineCount(d, MaxPipelines(world.catalog, m), RequiredNodeCount(world.catalog, m),
            perPipeline);
        snapshots := snapshots + [PoolDemandSnapshot(m, d, |Pool(tracker.pools, m)|, wanted)];
        SnapshotsSnoc(world, Now(), models[..i], m, demand, perPipeline);
        assert models[..i + 1] == models[..i] + [m];
      }
      assert models[..|models|] == models;
    }

    // The snapshots and the plan of one tick.
    method MakePlan(v: View, demand: map<string, nat>, perPipeline: real) returns (claims: seq<PipelineClaim>)
      requires tick.Checking? && tick.todo == [] && tick.models == []
      requires Refs(Now()) && PoolProtocol.Usable(v) && perPipeline > 0.0
      modifies this`tick
      ensures Possible(world, old(Now()), Plan(v, demand, perPipeline, claims))
      ensures Now() == Apply(world, old(Now()), Plan(v, demand, perPipeline, claims))
    {
      hide ClaimedLauncherIds, PlanSound, PlanMaximal, PlanOf, Snapshots, MultiPipelineModelIds;
      var snapshots := TakeSnapshots(demand, perPipeline);
      var claimed := ClaimedIds(None);
      claims := PlanAllocations(snapshots, LaunchersFor(v.launchers), claimed);
      tick := Allocating(claims, {});
    }

    // tryAssemble, up to the POST.
    method CommitClaim(v: View)
      requires Possible(world, Now(), Commit(v))
      modifies this, tracker
      ensures Now() == Apply(world, old(Now()), Commit(v))
    {
      hide ClaimedLauncherIds, PoolProtocol.Reserve;
      var t := tick;
      var c, rest := t.claims[0], t.claims[1..];
      if c.modelId in t.failed {
        tick := Allocating(rest, t.failed);
        return;
      }
      var claimed := ClaimedIds(None);
      if v.selection == None || world.driverOf(c.launcher) !in v.trusted || IsLauncherClaimed(claimed, c.launcher) {
        tick := Allocating(rest, t.failed + {c.modelId});
        return;
      }
      ghost var before := Now();
      var id := nextId;
      Reserve(c.modelId, c.launcher, v.now);
      ReserveLeaves(before, c.modelId, c.launcher, v.now);
      tick := Awaiting(c, id, v.selection.value, rest, t.failed);
    }

    // tryAssemble from the answer to the POST on.
    method SettleClaim(ok: bool, now: int)
      requires Possible(world, Now(), Step.SettleClaim(ok, now))
      modifies this, tracker
      ensures Now() == Apply(world, old(Now()), Step.SettleClaim(ok, now))
    {
      var t := tick;
      var m, l := t.claim.modelId, t.claim.launcher;
      tracker.RemoveEntry(m, t.reservation);
      if ok {
        var warm := Entry(world.driverOf(l), t.contributors, l.launcherId, l.endpoint, Warm, now);
        tracker.AddEntry(m, nextId, warm);
        nextId := nextId + 1;
        tick := Allocating(t.claims, t.failed);
      } else {
        tick := Allocating(t.claims, t.failed + {m});
      }
    }

    method EndTick()
      requires Possible(world, Now(), Step.EndTick)
      modifies this`tick
      ensures Now() == Apply(world, old(Now()), Step.EndTick)
    {
      tick := Idle;
    }

    // ---------------------------------------------------------------- every step

    // A launcher's own doing: it handles a command, loses its agent, or starts afresh.
    method LauncherMoves(step: Step)
      requires step.LauncherHandles? || step.AgentExits? || step.LauncherRestarts?
      requires Possible(world, Now(), step)
      modifies this`machines, this`replies
      ensures Now() == Apply(world, old(Now()), step)
    {
      var mach := MachineAt(machines, step.endpoint);
      match step
      case LauncherHandles(endpoint, outcome) =>
        if mach.queue[0].Post? && outcome == Started {
          replies := replies + {mach.queue[0].tag};
        }
        machines := machines[endpoint := Handle(mach, outcome)];
      case AgentExits(endpoint) => machines := machines[endpoint := mach.(agent := None)];
      case LauncherRestarts(endpoint) => machines := machines[endpoint := Machine([], None)];
    }

    // Whatever happens next, the objects make a step of the protocol (for a plan, the one the planner found), and so
    // they keep its invariant.
    method Perform(step: Step) returns (ghost did: Step)
      requires Possible(world, Now(), step) && Inv(world, Now())
      modifies this, tracker
      ensures Possible(world, old(Now()), did) && Now() == Apply(world, old(Now()), did)
      ensures if step.Plan? then did.Plan? else did == step
      ensures Inv(world, Now())
    {
      hide Inv, Apply, IsPlan;
      did := step;
      StepKeepsInv(world, Now());
      match step
      case BeginColdStart(m, v) => EnsurePipelineReady(m, v);
      case SettleColdStart(m, ok, v) => SettleColdStart(m, ok, v);
      case OldLauncherStopped(m, v) => OldLauncherStopped(m, v);
      case Use(id, now) => Stamp(id, now);
      case FailForward(m, driver) => MarkDriverFailed(m, driver);
      case BeginTick(v) => TimerFires(v);
      case CheckNext(v) => CheckNext(v);
      case TornDown => TornDown();
      case Plan(v, demand, perPipeline, _) =>
        var claims := MakePlan(v, demand, perPipeline);
        did := Plan(v, demand, perPipeline, claims);
      case Commit(v) => CommitClaim(v);
      case SettleClaim(ok, now) => SettleClaim(ok, now);
      case EndTick => EndTick();
      case LauncherHandles(_, _) => LauncherMoves(step);
      case AgentExits(_) => LauncherMoves(step);
      case LauncherRestarts(_) => LauncherMoves(step);
    }

    // A request stamps the entry it uses.
    method Stamp(id: Uid, now: int)
      requires Possible(world, Now(), Use(id, now))
      modifies tracker`entries
      ensures Now() == Apply(world, old(Now()), Use(id, now))
    {
      tracker.entries := tracker.entries[id := tracker.entries[id].(lastUsedAt := now)];
    }
  }

  // An entry that a request may be routed to.
  predicate UsableEntry(e: Entry, active: set<string>) {
    e.state == Warm && e.driverNodeId in active
  }

  // Among the first n entries of the pool, b is the usable one unused for longest, and the first such one.
  ghost predicate Oldest(entries: map<Uid, Entry>, pool: seq<Uid>, active: set<string>, n: nat, b: nat) {
    && b < n <= |pool| && (forall j :: 0 <= j < n ==> pool[j] in entries) && UsableEntry(entries[pool[b]], active)
    && forall j :: 0 <= j < n && UsableEntry(entries[pool[j]], active) ==>
         entries[pool[j]].lastUsedAt > entries[pool[b]].lastUsedAt
         || (entries[pool[j]].lastUsedAt == entries[pool[b]].lastUsedAt && j >= b)
  }

  lemma {:induction false} SnapshotsSnoc(w: World, s: State, models: seq<string>, m: string,
      demand: map<string, nat>, perPipeline: real)
    requires perPipeline > 0.0
    ensures Snapshots(w, s, models + [m], demand, perPipeline)
         == Snapshots(w, s, models, demand, perPipeline) + Snapshots(w, s, [m], demand, perPipeline)
    ensures |Snapshots(w, s, [m], demand, perPipeline)| == 1
    ensures var d := if m in demand then demand[m] else 0;
            Snapshots(w, s, [m], demand, perPipeline) == [PoolDemandSnapshot(m, d, |Pool(s.pools, m)|,
              DesiredPipelineCount(d, MaxPipelines(w.catalog, m), RequiredNodeCount(w.catalog, m), perPipeline))]
  {
    hide DesiredPipelineCount, MaxPipelines, RequiredNodeCount;
    assert [m][1..] == [];
    if models == [] {
      assert models + [m] == [m];
    } else {
      assert (models + [m])[1..] == models[1..] + [m];
      SnapshotsSnoc(w, s, models[1..], m, demand, perPipeline);
    }
  }

  lemma {:induction false} StepKeepsInv(w: World, s: State)
    requires Inv(w, s)
    ensures forall step :: Possible(w, s, step) ==> Inv(w, Apply(w, s, step))
  {
    hide Inv, Possible, Apply;
    forall step | Possible(w, s, step) ensures Inv(w, Apply(w, s, step)) {
      StepKeeps(w, s, step);
    }
  }

  lemma {:induction false} InFlightIsNoChoice(w: World, s: State, model: string, v: View)
    requires Refs(s) && model in s.coldStarts
    ensures ColdChoice(w, s, model, v) == None
  {
  }

  lemma {:induction false} ReserveLeaves(s: State, model: string, l: LauncherInfo, now: int)
    ensures var r := PoolProtocol.Reserve(s, model, l, now);
            r.coldStarts == s.coldStarts && r.tick == s.tick && r.replies == s.replies
  {
  }

  lemma {:induction false} StopLeaves(s: State, launchers: seq<LauncherInfo>, e: Entry)
    ensures var r := PoolProtocol.StopLauncher(s, launchers, e);
            r == s.(machines := r.machines)
  {
  }

  // Some entries of a driver marked failed.
  function FailedAmong(entries: map<Uid, Entry>, ids: seq<Uid>, driver: string): map<Uid, Entry> {
    map id | id in entries ::
      if id in ids && entries[id].driverNodeId == driver then entries[id].(state := Failed) else entries[id]
  }

  lemma {:induction false} FailedAmongSnoc(entries: map<Uid, Entry>, ids: seq<Uid>, k: nat, driver: string)
    requires k < |ids| && ids[k] in entries
    ensures FailedAmong(entries, ids[..k + 1], driver) ==
            if FailedAmong(entries, ids[..k], driver)[ids[k]].driverNodeId == driver
            then var before := FailedAmong(entries, ids[..k], driver);
                 before[ids[k] := before[ids[k]].(state := Failed)]
            else FailedAmong(entries, ids[..k], driver)
  {
  }

  lemma {:induction false} FailedAmongIsForwardFailed(s: State, model: string, driver: string)
    requires Refs(s)
    ensures ForwardFailed(s, model, driver) == s.(entries := FailedAmong(s.entries, Pool(s.pools, model), driver))
  {
  }

  lemma {:induction false} SkipLauncher(launchers: seq<LauncherInfo>, model: string, claimed: set<string>)
    requires launchers != [] && !(model in launchers[0].servesModels && !IsLauncherClaimed(claimed, launchers[0]))
    ensures FirstFree(ListForModel(launchers, model), claimed)
        == FirstFree(ListForModel(launchers[1..], model), claimed)
  {
    var later := ListForModel(launchers[1..], model);
    assert [] + later == later && ([launchers[0]] + later)[1..] == later;
  }

  lemma {:induction false} AssemblingInPool(s: State, model: string)
    requires Refs(s)
    ensures forall id :: id in Pool(s.pools, model) ==> id in s.entries
    ensures (exists id :: id in Pool(s.pools, model) && s.entries[id].state == Assembling)
       <==> (exists id :: id in Pool(s.pools, model) && Live(s.pools, model, id) && s.entries[id].state == Assembling)
  {
    PoolIsStored(s.pools, s.entries, model);
    if id :| id in Pool(s.pools, model) && s.entries[id].state == Assembling {
      assert Live(s.pools, model, id);
    }
  }
}
