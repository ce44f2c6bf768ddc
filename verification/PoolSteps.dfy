// Each step of the pool protocol keeps the invariant.
module PoolSteps {
  import opened Options
  import opened Seqs
  import opened Catalog
  import opened Launchers
  import opened AllocationPlanner
  import opened PoolProtocol
  import opened PoolInvariant

  // ---------------------------------------------------------------- choosing a launcher

  lemma {:induction false} FirstFreeIsFree(launchers: seq<LauncherInfo>, claimed: set<string>)
    ensures var r := FirstFree(launchers, claimed);
            r.Some? ==> r.value in launchers && !IsLauncherClaimed(claimed, r.value)
  {
    if launchers != [] {
      FirstFreeIsFree(launchers[1..], claimed);
    }
  }

  lemma {:induction false} ListForModelIsListed(launchers: seq<LauncherInfo>, model: string)
    ensures forall l :: l in ListForModel(launchers, model) <==> l in launchers && model in l.servesModels
  {
    if launchers != [] {
      assert launchers == [launchers[0]] + launchers[1..];
      ListForModelIsListed(launchers[1..], model);
    }
  }

  // ---------------------------------------------------------------- the request path

  // The launcher a cold start picks is held by nobody but the settled entry it will replace.
  lemma {:induction false} ColdChoiceIsFree(w: World, s: State, model: string, v: View)
    requires PoolsOk(w, s) && FramesOk(w, s) && Usable(v)
    ensures var choice, tracked := ColdChoice(w, s, model, v), Tracked(s, model);
            choice.Some? ==>
              && model !in s.coldStarts && model in MultiPipelineModelIds(w.catalog) && choice.value.endpoint != ""
              && FreeExcept(s, model, choice.value, tracked)
              && (tracked.Some? ==> Settled(s, tracked.value))
  {
    hide NoDup;
    var choice, tracked := ColdChoice(w, s, model, v), Tracked(s, model);
    if choice.Some? {
      var l := choice.value;
      FirstFreeIsFree(ListForModel(v.launchers, model), ClaimedLauncherIds(w, s, tracked));
      ListForModelIsListed(v.launchers, model);
      MultiNodeModelsAreTracked(w.catalog, model);
      assert tracked.Some? ==> Live(s.pools, model, tracked.value) && Settled(s, tracked.value);
      forall m, id | Live(s.pools, m, id) && id in s.entries
                     && (s.entries[id].launcherId == l.launcherId || s.entries[id].launcherEndpoint == l.endpoint)
        ensures m == model && tracked == Some(id) && Settled(s, id)
      {
        if tracked != Some(id) {
          UnclaimedIsUnshared(w, s, tracked, l, m, id);
        }
      }
    }
  }

  lemma {:induction false} BeginColdStartKeeps(w: World, s: State, model: string, v: View)
    requires Inv(w, s) && Possible(w, s, BeginColdStart(model, v))
    ensures Inv(w, ColdBegin(w, s, model, v))
  {
    hide HostsOk, QueueOk, Exclusive, NoDup, ColdChoice, FreeExcept;
    var choice := ColdChoice(w, s, model, v);
    ColdChoiceIsFree(w, s, model, v);
    if choice.Some? {
      var l := choice.value;
      var s' := ColdBegin(w, s, model, v);
      ReserveGrows(s, s', model, l, v.now);
      BeginColdStartFrames(w, s, s', model, l, v.now);
      ReserveKeeps(w, s, s', model, l, v.now, Tracked(s, model));
    }
  }

  // Reserve, seen through Pool and Live.
  lemma {:induction false} ReserveGrows(s: State, s': State, model: string, l: LauncherInfo, now: int)
    requires forall m :: NoDup(Pool(s.pools, m))
    requires forall id :: id in s.entries ==> id < s.nextId
    requires forall m, id :: Live(s.pools, m, id) ==> id in s.entries
    requires var r := Reserve(s, model, l, now);
             s'.pools == r.pools && s'.entries == r.entries && s'.nextId == r.nextId && s'.machines == r.machines
             && s'.replies == s.replies
    ensures Reserves(s, s', model, l, now)
  {
    var s1 := AddEntry(s, model, s.nextId, Reservation(l, now));
    forall m ensures !Live(s.pools, m, s.nextId) {
      assert s.nextId !in s.entries;
    }
    Added(s, model, s.nextId, Reservation(l, now));
    assert MachineAt(s1.machines, l.endpoint) == MachineAt(s.machines, l.endpoint);
  }

  // The cold start that a reservation was made for stands in the map.
  ghost predicate Begins(s: State, s': State, model: string, l: LauncherInfo) {
    && model !in s.coldStarts && s'.tick == s.tick
    && model in s'.coldStarts && s'.coldStarts == s.coldStarts[model := s'.coldStarts[model]]
    && var c := s'.coldStarts[model];
       && c.reservation == s.nextId && c.launcher == l && c.phase == Posting
       && (c.tracked.Some? ==> Settled(s, c.tracked.value))
  }

  lemma {:induction false} BeginColdStartFrames(w: World, s: State, s': State, model: string, l: LauncherInfo, now: int)
    requires PoolsOk(w, s) && FramesOk(w, s) && Reserves(s, s', model, l, now) && Begins(s, s', model, l)
    ensures Refs(s') && FramesOk(w, s')
  {
    hide NoDup;
    BeginColdStartOwn(w, s, s', model, l, now);
    forall m ensures ColdOk(s', m) {
      assert ColdOk(s, m);
    }
    forall m, id | Live(s'.pools, m, id) ensures Settled(s', id) || ColdAwaits(s', m, id) || TickAwaits(s', m, id) {
      if id != s.nextId {
        assert Live(s.pools, m, id);
      }
    }
  }

  lemma {:induction false} BeginColdStartOwn(w: World, s: State, s': State, model: string, l: LauncherInfo, now: int)
    requires PoolsOk(w, s) && FramesOk(w, s) && Reserves(s, s', model, l, now) && Begins(s, s', model, l)
    ensures Refs(s') && ColdOk(s', model) && TickOk(w, s') && s.nextId !in s.entries
  {
    hide NoDup;
    assert s.nextId !in s.entries;
    assert Live(s'.pools, model, s.nextId);
  }

  // The POST failed: the reservation goes, the entry it was to replace is marked failed.
  lemma {:induction false} FailColdStartKeeps(w: World, s: State, model: string, v: View)
    requires Inv(w, s) && Possible(w, s, SettleColdStart(model, false, v))
    ensures Inv(w, ColdSettle(w, s, model, false, v))
  {
    hide HostsOk, QueueOk, Exclusive, NoDup, ColdSettle;
    var s' := ColdSettle(w, s, model, false, v);
    FailDrops(w, s, model, v);
    DropColdFrames(w, s, s', model);
    ShrinkKeeps(w, s, s');
  }

  lemma {:induction false} FailDrops(w: World, s: State, model: string, v: View)
    requires PoolsOk(w, s) && FramesOk(w, s) && model in s.coldStarts
    ensures var s' := ColdSettle(w, s, model, false, v);
            DropsCold(s, s', model) && s'.nextId == s.nextId && s'.machines == s.machines
                && forall m :: NoDup(Pool(s'.pools, m))
  {
    assert ColdOk(s, model);
    Removed(s, model, s.coldStarts[model].reservation);
    assert ColdSettle(w, s, model, false, v).pools == RemoveEntry(s, model, s.coldStarts[model].reservation).pools;
  }

  // A cold start ends and its reservation has left the pool; others keep what they hold.
  ghost predicate DropsCold(s: State, s': State, model: string)
    requires model in s.coldStarts
  {
    && s'.coldStarts == s.coldStarts - {model} && s'.tick == s.tick && s'.replies == s.replies
    && s'.entries.Keys == s.entries.Keys && (forall id :: id in s.entries ==> SameHost(s.entries[id], s'.entries[id]))
    && (forall m, id :: Live(s'.pools, m, id) ==> Live(s.pools, m, id))
    && (forall m, id :: Live(s.pools, m, id) && m != model ==> Live(s'.pools, m, id))
    && (forall id :: Live(s.pools, model, id) && id != s.coldStarts[model].reservation
          && s.coldStarts[model].tracked != Some(id)
          ==> Live(s'.pools, model, id))
    && !Live(s'.pools, model, s.coldStarts[model].reservation)
  }

  lemma {:induction false} DropColdFrames(w: World, s: State, s': State, model: string)
    requires PoolsOk(w, s) && FramesOk(w, s) && model in s.coldStarts && DropsCold(s, s', model)
    ensures Refs(s') && FramesOk(w, s')
    ensures forall m, r, t ::
              Replaces(s, m, r, t) && Live(s'.pools, m, r) && Live(s'.pools, m, t) ==> Replaces(s', m, r, t)
  {
    hide NoDup;
    forall m ensures ColdOk(s', m) {
      DropColdOther(w, s, s', model, m);
    }
    DropColdTick(w, s, s', model);
    forall m, id | Live(s'.pools, m, id) ensures Settled(s', id) || ColdAwaits(s', m, id) || TickAwaits(s', m, id) {
      assert Live(s.pools, m, id);
    }
  }

  lemma {:induction false} DropColdOther(w: World, s: State, s': State, model: string, m: string)
    requires PoolsOk(w, s) && FramesOk(w, s) && model in s.coldStarts && DropsCold(s, s', model)
    ensures ColdOk(s', m)
  {
    hide NoDup;
    assert ColdOk(s, m);
    if m in s'.coldStarts {
      assert Live(s'.pools, m, s.coldStarts[m].reservation);
    }
  }

  lemma {:induction false} DropColdTick(w: World, s: State, s': State, model: string)
    requires PoolsOk(w, s) && FramesOk(w, s) && model in s.coldStarts && DropsCold(s, s', model)
    ensures Refs(s') && TickOk(w, s')
  {
    hide NoDup;
    assert ColdOk(s, model);
  }

  // The POST succeeded on another launcher: the old one is told to stop first.
  lemma {:induction false} StopOldKeeps(w: World, s: State, model: string, v: View)
    requires Inv(w, s) && Possible(w, s, SettleColdStart(model, true, v))
    requires var c := s.coldStarts[model];
             c.tracked.Some? && s.entries[c.tracked.value].launcherId != c.launcher.launcherId
    ensures Inv(w, ColdSettle(w, s, model, true, v))
  {
    hide HostsOk, QueueOk, Exclusive, NoDup, StopLauncher;
    var c := s.coldStarts[model];
    var s1 := StopLauncher(s, v.launchers, s.entries[c.tracked.value]);
    StopKeeps(w, s, v.launchers, s.entries[c.tracked.value]);
    var s' := s1.(coldStarts := s.coldStarts[model := c.(phase := Stopping)]);
    StoppingFrames(w, s1, model);
    ShrinkKeeps(w, s1, s');
  }

  lemma {:induction false} StoppingFrames(w: World, s: State, model: string)
    requires Refs(s) && FramesOk(w, s) && model in s.coldStarts && s.coldStarts[model].reservation in s.replies
    ensures var s' := s.(coldStarts := s.coldStarts[model := s.coldStarts[model].(phase := Stopping)]);
            Refs(s') && FramesOk(w, s')
  {
    var s' := s.(coldStarts := s.coldStarts[model := s.coldStarts[model].(phase := Stopping)]);
    forall m ensures ColdOk(s', m) {
      assert ColdOk(s, m);
    }
  }

  lemma {:induction false} StopKeeps(w: World, s: State, launchers: seq<LauncherInfo>, e: Entry)
    requires Inv(w, s)
    ensures var s' := StopLauncher(s, launchers, e);
            && Inv(w, s') && s'.pools == s.pools && s'.entries == s.entries && s'.coldStarts == s.coldStarts
            && s'.tick == s.tick && s'.replies == s.replies && s'.nextId == s.nextId
  {
    match EndpointOf(launchers, e.launcherId)
    case Some(x) => DeleteKeeps(w, s, x);
    case None => DeleteKeeps(w, s, e.launcherEndpoint);
  }

  // A cold start that is answered first loses its reservation and the entry it replaces.
  function Cleared(s: State, model: string): State
    requires model in s.coldStarts
  {
    var c := s.coldStarts[model];
    var s1 := if c.tracked.Some? then RemoveEntry(s, model, c.tracked.value) else s;
    RemoveEntry(s1, model, c.reservation).(coldStarts := s.coldStarts - {model})
  }

  lemma {:induction false} ClearedPools(s: State, model: string)
    requires model in s.coldStarts && forall m :: NoDup(Pool(s.pools, m))
    ensures var s' := Cleared(s, model);
            && (forall m :: NoDup(Pool(s'.pools, m)))
            && forall m, id :: Live(s'.pools, m, id) <==>
                 Live(s.pools, m, id) && !(m == model && (id == s.coldStarts[model].reservation
                     || s.coldStarts[model].tracked == Some(id)))
  {
    var c := s.coldStarts[model];
    var s1 := if c.tracked.Some? then RemoveEntry(s, model, c.tracked.value) else s;
    if c.tracked.Some? {
      Removed(s, model, c.tracked.value);
    }
    Removed(s1, model, c.reservation);
  }

  lemma {:induction false} ClearedKeeps(w: World, s: State, model: string)
    requires Inv(w, s) && model in s.coldStarts
    ensures Inv(w, Cleared(s, model))
  {
    hide HostsOk, QueueOk, Exclusive, NoDup;
    ClearedPools(s, model);
    DropColdFrames(w, s, Cleared(s, model), model);
    ShrinkKeeps(w, s, Cleared(s, model));
  }

  // Nothing that stays in a pool shares the launcher of the answered cold start.
  lemma {:induction false} ClearedIsUnshared(w: World, s: State, model: string, m: string, id: Uid)
    requires PoolsOk(w, s) && FramesOk(w, s) && Exclusive(s) && model in s.coldStarts
        && Live(Cleared(s, model).pools, m, id)
    ensures id in s.entries
    ensures var l := s.coldStarts[model].launcher;
            s.entries[id].launcherId != l.launcherId && s.entries[id].launcherEndpoint != l.endpoint
  {
    var r := s.coldStarts[model].reservation;
    ClearedPools(s, model);
    assert ColdOk(s, model);
    assert Live(s.pools, m, id) && Live(s.pools, model, r);
    assert Apart(s, model, r, m, id);
  }

  // The reservation becomes a warm entry and the entry it replaces leaves the pool.
  lemma {:induction false} FinishColdStartKeeps(w: World, s: State, model: string, now: int)
    requires Inv(w, s) && model in s.coldStarts && s.coldStarts[model].reservation in s.replies
    ensures Inv(w, ColdFinish(w, s, model, now))
  {
    hide Exclusive, QueueOk, NoDup;
    var c := s.coldStarts[model];
    var s3 := Cleared(s, model);
    ClearedKeeps(w, s, model);
    var warm := Entry(w.driverOf(c.launcher), c.contributors, c.launcher.launcherId, c.launcher.endpoint, Warm, now);
    forall m, id | Live(s3.pools, m, id) ensures !SharesLauncher(warm, s3.entries[id])
        && !SharesLauncher(s3.entries[id], warm) {
      ClearedIsUnshared(w, s, model, m, id);
    }
    assert ColdOk(s, model) && HostOk(s, model, c.reservation);
    AddWarmKeeps(w, s3, AddEntry(s3, model, s3.nextId, warm).(nextId := s3.nextId + 1), model, warm);
    assert AddEntry(s3, model, s3.nextId, warm).(nextId := s3.nextId + 1) == ColdFinish(w, s, model, now);
  }

  // Changes inside entry objects: usage stamps and failed forwards.
  lemma {:induction false} TouchKeeps(w: World, s: State, entries: map<Uid, Entry>)
    requires Inv(w, s) && entries.Keys == s.entries.Keys
    requires forall id :: id in s.entries ==> SameHost(s.entries[id], entries[id])
    ensures Inv(w, s.(entries := entries))
  {
    hide HostsOk, QueueOk, Exclusive;
    var s' := s.(entries := entries);
    forall m ensures ColdOk(s', m) {
      assert ColdOk(s, m);
    }
    ShrinkKeeps(w, s, s');
  }

  lemma {:induction false} FailForwardKeeps(w: World, s: State, model: string, driver: string)
    requires Inv(w, s) && driver != ""
    ensures Inv(w, ForwardFailed(s, model, driver))
  {
    TouchKeeps(w, s, ForwardFailed(s, model, driver).entries);
  }

  // ---------------------------------------------------------------- the background tick

  // Moves of the tick that touch neither pools nor network.
  lemma {:induction false} TickMoveKeeps(w: World, s: State, tick: Tick)
    requires Inv(w, s) && !tick.Awaiting? && !s.tick.Awaiting?
    requires var s' := s.(tick := tick); Refs(s') && TickOk(w, s')
    ensures Inv(w, s.(tick := tick))
  {
    hide HostsOk, QueueOk, Exclusive;
    var s' := s.(tick := tick);
    forall m ensures ColdOk(s', m) {
      assert ColdOk(s, m);
    }
    ShrinkKeeps(w, s, s');
  }

  lemma {:induction false} CheckNextKeeps(w: World, s: State, v: View)
    requires Inv(w, s) && Possible(w, s, CheckNext(v))
    ensures Inv(w, TickCheck(w, s, v))
  {
    var t := s.tick;
    if t.todo == [] {
      assert forall id :: id in Pool(s.pools, t.models[0]) ==> Live(s.pools, t.models[0], id);
      TickMoveKeeps(w, s, TickCheck(w, s, v).tick);
    } else {
      var id, rest := t.todo[0], t.todo[1..];
      if Condemned(Judge(s.entries[id], t.active, t.now, w.idleGraceMs)) {
        StopKeeps(w, s, v.launchers, s.entries[id]);
        var s1 := StopLauncher(s, v.launchers, s.entries[id]);
        TickMoveKeeps(w, s1, TickCheck(w, s, v).tick);
      } else {
        TickMoveKeeps(w, s, TickCheck(w, s, v).tick);
      }
    }
  }

  lemma {:induction false} TornDownKeeps(w: World, s: State)
    requires Inv(w, s) && s.tick.TearingDown?
    ensures Inv(w, TickTornDown(s))
  {
    hide HostsOk, QueueOk, Exclusive, NoDup;
    var s' := TickTornDown(s);
    Removed(s, s.tick.model, s.tick.victim);
    TornDownFrames(w, s);
    ShrinkKeeps(w, s, s');
  }

  lemma {:induction false} TornDownFrames(w: World, s: State)
    requires PoolsOk(w, s) && FramesOk(w, s) && s.tick.TearingDown?
    ensures Refs(TickTornDown(s)) && FramesOk(w, TickTornDown(s))
  {
    var s' := TickTornDown(s);
    Removed(s, s.tick.model, s.tick.victim);
    hide NoDup;
    forall m ensures ColdOk(s', m) {
      assert ColdOk(s, m);
    }
    forall m, id | Live(s'.pools, m, id) ensures Settled(s', id) || ColdAwaits(s', m, id) || TickAwaits(s', m, id) {
      assert Live(s.pools, m, id);
    }
  }

  lemma {:induction false} SnapshotsFacts(w: World, s: State, models: seq<string>, demand: map<string, nat>,
      perPipeline: real)
    requires perPipeline > 0.0
    ensures var r := Snapshots(w, s, models, demand, perPipeline);
            && |r| == |models|
            && forall i :: 0 <= i < |r| ==>
                 && r[i].modelId == models[i] && r[i].currentCount == |Pool(s.pools, models[i])|
                 && r[i].desiredCount <= MaxPipelines(w.catalog, models[i])
  {
    if models != [] {
      SnapshotsFacts(w, s, models[1..], demand, perPipeline);
      assert forall i :: 0 < i < |models| ==> models[i] == models[1..][i - 1];
    }
  }

  lemma {:induction false} PlanKeeps(w: World, s: State, v: View, demand: map<string, nat>, perPipeline: real,
      claims: seq<PipelineClaim>)
    requires Inv(w, s) && Possible(w, s, Plan(v, demand, perPipeline, claims))
    ensures Inv(w, s.(tick := Allocating(claims, {})))
  {
    PlannedClaimsOk(w, s, v, demand, perPipeline, claims);
    TickMoveKeeps(w, s, Allocating(claims, {}));
  }

  lemma {:induction false} PlannedClaimsOk(w: World, s: State, v: View, demand: map<string, nat>, perPipeline: real,
      claims: seq<PipelineClaim>)
    requires perPipeline > 0.0 && Refs(s) && Usable(v) && IsPlan(w, s, v, demand, perPipeline, claims)
    ensures forall c :: c in claims ==> c.modelId in MultiPipelineModelIds(w.catalog) && c.launcher.endpoint != ""
  {
    var models := MultiPipelineModelIds(w.catalog);
    var snapshots := Snapshots(w, s, models, demand, perPipeline);
    var launchersFor := LaunchersFor(v.launchers);
    PlanOfIsGreedy(snapshots, launchersFor, ClaimedLauncherIds(w, s, None));
    forall c | c in claims ensures c.modelId in models && c.launcher.endpoint != "" {
      var k :| 0 <= k < |claims| && claims[k] == c;
      ListForModelIsListed(v.launchers, c.modelId);
      assert claims[k].launcher in launchersFor(claims[k].modelId) && ServedAtLeast(claims[k], snapshots, 0);
      SnapshotsFacts(w, s, models, demand, perPipeline);
    }
  }

  lemma {:induction false} CommitKeeps(w: World, s: State, v: View)
    requires Inv(w, s) && Possible(w, s, Commit(v))
    ensures Inv(w, TickCommit(w, s, v))
  {
    hide HostsOk, QueueOk, Exclusive, NoDup;
    var t := s.tick;
    var c, rest := t.claims[0], t.claims[1..];
    var claimed := ClaimedLauncherIds(w, s, None);
    assert c in UnspentClaims(s.tick) && forall x :: x in rest ==> x in UnspentClaims(s.tick);
    if c.modelId in t.failed || v.selection.None? || w.driverOf(c.launcher) !in v.trusted
        || IsLauncherClaimed(claimed, c.launcher) {
      TickMoveKeeps(w, s, TickCommit(w, s, v).tick);
    } else {
      CommitReservesKeeps(w, s, v);
    }
  }

  // The re-check at the moment of commitment: nobody holds the launcher.
  lemma {:induction false} CommitIsFree(w: World, s: State, v: View)
    requires PoolsOk(w, s) && FramesOk(w, s) && s.tick.Allocating? && s.tick.claims != []
        && TickCommit(w, s, v).tick.Awaiting?
    ensures var c := s.tick.claims[0];
            && FreeExcept(s, c.modelId, c.launcher, None)
            && c.launcher.endpoint != "" && c.modelId in MultiPipelineModelIds(w.catalog)
  {
    hide NoDup, ClaimedLauncherIds;
    var c := s.tick.claims[0];
    assert c in UnspentClaims(s.tick);
    forall m, id | Live(s.pools, m, id)
      ensures s.entries[id].launcherId != c.launcher.launcherId && s.entries[id].launcherEndpoint != c.launcher.endpoint
    {
      UnclaimedIsUnshared(w, s, None, c.launcher, m, id);
    }
  }

  lemma {:induction false} CommitReserves(w: World, s: State, v: View)
    requires PoolsOk(w, s) && s.tick.Allocating? && s.tick.claims != [] && TickCommit(w, s, v).tick.Awaiting?
    ensures var c, s' := s.tick.claims[0], TickCommit(w, s, v);
            && Reserves(s, s', c.modelId, c.launcher, v.now)
            && s'.coldStarts == s.coldStarts && s'.replies == s.replies
            && s'.tick.claim == c && s'.tick.claims == s.tick.claims[1..] && s'.tick.reservation == s.nextId
  {
    hide ClaimedLauncherIds, Reserves;
    ReserveGrows(s, TickCommit(w, s, v), s.tick.claims[0].modelId, s.tick.claims[0].launcher, v.now);
  }

  lemma {:induction false} CommitReservesKeeps(w: World, s: State, v: View)
    requires Inv(w, s) && s.tick.Allocating? && s.tick.claims != [] && TickCommit(w, s, v).tick.Awaiting?
    ensures Inv(w, TickCommit(w, s, v))
  {
    var c, s' := s.tick.claims[0], TickCommit(w, s, v);
    hide TickCommit, Reserves, FramesOk, HostsOk, QueueOk, Exclusive, NoDup, FreeExcept;
    CommitIsFree(w, s, v);
    CommitReserves(w, s, v);
    CommitFrames(w, s, s', v.now);
    ReserveKeeps(w, s, s', c.modelId, c.launcher, v.now, None);
  }

  lemma {:induction false} CommitFrames(w: World, s: State, s': State, now: int)
    requires PoolsOk(w, s) && FramesOk(w, s) && s.tick.Allocating? && s.tick.claims != []
    requires Reserves(s, s', s.tick.claims[0].modelId, s.tick.claims[0].launcher, now)
    requires s'.coldStarts == s.coldStarts && s'.tick.Awaiting?
    requires s'.tick.claim == s.tick.claims[0] && s'.tick.claims == s.tick.claims[1..]
        && s'.tick.reservation == s.nextId
    ensures Refs(s') && FramesOk(w, s')
  {
    assert s.nextId !in s.entries;
    assert Live(s'.pools, s.tick.claims[0].modelId, s.nextId);
    forall m ensures ColdOk(s', m) {
      assert ColdOk(s, m);
    }
    forall m, id | Live(s'.pools, m, id) ensures Settled(s', id) || ColdAwaits(s', m, id) || TickAwaits(s', m, id) {
      if id != s.nextId {
        assert Live(s.pools, m, id);
      }
    }
    assert forall x :: x in UnspentClaims(s'.tick) ==> x in UnspentClaims(s.tick);
  }

  // Both outcomes of the tick's POST start by dropping the reservation.
  lemma {:induction false} DropClaimKeeps(w: World, s: State, failed: set<string>)
    requires Inv(w, s) && s.tick.Awaiting?
    ensures var s' := RemoveEntry(s, s.tick.claim.modelId, s.tick.reservation)
                     .(tick := Allocating(s.tick.claims, failed));
            && Inv(w, s')
            && forall m, id :: Live(s'.pools, m, id)
                  <==> Live(s.pools, m, id) && !(m == s.tick.claim.modelId && id == s.tick.reservation)
  {
    hide HostsOk, QueueOk, Exclusive, NoDup;
    var m0, r := s.tick.claim.modelId, s.tick.reservation;
    var s1 := RemoveEntry(s, m0, r);
    var s' := s1.(tick := Allocating(s.tick.claims, failed));
    Removed(s, m0, r);
    forall m ensures ColdOk(s', m) {
      assert ColdOk(s, m);
      if m in s.coldStarts && m == m0 {
        assert !TickAwaits(s, m, s.coldStarts[m].reservation);
      }
    }
    forall m, id | Live(s'.pools, m, id) ensures Settled(s', id) || ColdAwaits(s', m, id) || TickAwaits(s', m, id) {
      assert Live(s.pools, m, id);
      assert Live(s.pools, m0, r);
    }
    ShrinkKeeps(w, s, s');
  }

  lemma {:induction false} SettleClaimKeeps(w: World, s: State, ok: bool, now: int)
    requires Inv(w, s) && Possible(w, s, SettleClaim(ok, now))
    ensures Inv(w, TickSettle(w, s, ok, now))
  {
    var t := s.tick;
    var m0, l, r := t.claim.modelId, t.claim.launcher, t.reservation;
    if !ok {
      DropClaimKeeps(w, s, t.failed + {m0});
    } else {
      DropClaimKeeps(w, s, t.failed);
      var s1 := RemoveEntry(s, m0, r).(tick := Allocating(t.claims, t.failed));
      var warm := Entry(w.driverOf(l), t.contributors, l.launcherId, l.endpoint, Warm, now);
      assert Live(s.pools, m0, r) && HostOk(s, m0, r);
      forall m, id | Live(s1.pools, m, id) ensures !SharesLauncher(warm, s1.entries[id])
          && !SharesLauncher(s1.entries[id], warm) {
        assert Live(s.pools, m, id);
        assert Apart(s, m0, r, m, id);
        ClaimIsNoReplacement(w, s, m, id);
      }
      AddWarmKeeps(w, s1, AddEntry(s1, m0, s1.nextId, warm).(nextId := s1.nextId + 1), m0, warm);
      assert AddEntry(s1, m0, s1.nextId, warm).(nextId := s1.nextId + 1) == TickSettle(w, s, ok, now);
    }
  }

  // The tick's own reservation is on neither side of a replacement.
  lemma {:induction false} ClaimIsNoReplacement(w: World, s: State, m: string, id: Uid)
    requires FramesOk(w, s) && s.tick.Awaiting?
    ensures !Replaces(s, s.tick.claim.modelId, s.tick.reservation, id)
    ensures !Replaces(s, s.tick.claim.modelId, id, s.tick.reservation)
  {
    assert ColdOk(s, s.tick.claim.modelId);
  }

  // ---------------------------------------------------------------- every step

  lemma {:induction false} StepKeeps(w: World, s: State, step: Step)
    requires Inv(w, s) && Possible(w, s, step)
    ensures Inv(w, Apply(w, s, step))
  {
    hide PoolsOk, HostsOk, QueueOk, Exclusive;
    match step
    case BeginColdStart(m, v) => BeginColdStartKeeps(w, s, m, v);
    case SettleColdStart(m, ok, v) =>
      var c := s.coldStarts[m];
      if !ok {
        FailColdStartKeeps(w, s, m, v);
      } else if c.tracked.Some? && s.entries[c.tracked.value].launcherId != c.launcher.launcherId {
        StopOldKeeps(w, s, m, v);
      } else {
        FinishColdStartKeeps(w, s, m, v.now);
      }
    case OldLauncherStopped(m, v) =>
      assert ColdOk(s, m);
      FinishColdStartKeeps(w, s, m, v.now);
    case Use(id, now) => TouchKeeps(w, s, s.entries[id := s.entries[id].(lastUsedAt := now)]);
    case FailForward(m, driver) => FailForwardKeeps(w, s, m, driver);
    case BeginTick(v) => TickMoveKeeps(w, s, Checking(MultiPipelineModelIds(w.catalog), "", [], v.active, v.now));
    case CheckNext(v) => CheckNextKeeps(w, s, v);
    case TornDown => TornDownKeeps(w, s);
    case Plan(v, demand, perPipeline, claims) => PlanKeeps(w, s, v, demand, perPipeline, claims);
    case Commit(v) => CommitKeeps(w, s, v);
    case SettleClaim(ok, now) => SettleClaimKeeps(w, s, ok, now);
    case EndTick => TickMoveKeeps(w, s, Idle);
    case LauncherHandles(e, outcome) => HandleKeeps(w, s, e, outcome);
    case AgentExits(e) =>
      FadeKeeps(w, s, e, MachineAt(s.machines, e).queue);
    case LauncherRestarts(e) => FadeKeeps(w, s, e, []);
  }
}
