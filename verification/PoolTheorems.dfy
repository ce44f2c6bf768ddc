// What holds in every state of every run of the pool protocol.
module PoolTheorems {
  import opened Options
  import opened Seqs
  import opened Catalog
  import opened AllocationPlanner
  import opened PoolProtocol
  import opened PoolInvariant
  import opened PoolSteps

  lemma {:induction false} EveryStateKeepsInv(w: World, run: seq<State>, labels: seq<Step>, i: nat)
    requires IsRun(w, run, labels) && i < |run|
    ensures Inv(w, run[i])
  {
    if i > 0 {
      hide Inv, Possible, Apply;
      assert Leads(w, run[i - 1], labels[i - 1], run[i]);
      EveryStateKeepsInv(w, run, labels, i - 1);
      StepKeeps(w, run[i - 1], labels[i - 1]);
    } else {
      EmptyKeepsInv(w);
    }
  }

  lemma {:induction false} EmptyKeepsInv(w: World)
    ensures Inv(w, INITIAL)
  {
    assert forall m :: Pool(INITIAL.pools, m) == [];
  }

  // Launcher exclusivity: whenever two pool entries name one launcher (by id or by endpoint), one is the
  // reservation of that model's cold start in flight and the other the settled entry it is replacing.
  lemma {:induction false} LauncherExclusivity(w: World, run: seq<State>, labels: seq<Step>, i: nat,
                                               m1: string, a: Uid, m2: string, b: Uid)
    requires IsRun(w, run, labels) && i < |run|
    requires a in Pool(run[i].pools, m1) && b in Pool(run[i].pools, m2) && a != b
    ensures a in run[i].entries && b in run[i].entries
    ensures SharesLauncher(run[i].entries[a], run[i].entries[b]) ==>
              && m1 == m2 && m1 in run[i].coldStarts
              && (run[i].entries[a].state == Assembling <==> run[i].entries[b].state != Assembling)
              && var (r, t) := if run[i].entries[a].state == Assembling then (a, b) else (b, a);
                 run[i].coldStarts[m1].reservation == r && run[i].coldStarts[m1].tracked == Some(t)
  {
    var s := run[i];
    EveryStateKeepsInv(w, run, labels, i);
    assert Live(s.pools, m1, a) && Live(s.pools, m2, b) && Apart(s, m1, a, m2, b);
    assert ColdOk(s, m1);
  }

  // Wrong-weights safety: the agent behind a warm or failed entry is absent or runs the entry's own model,
  // and nothing still queued at its launcher will start another model.
  lemma {:induction false} WrongWeightsSafety(w: World, run: seq<State>, labels: seq<Step>, i: nat, model: string,
      id: Uid)
    requires IsRun(w, run, labels) && i < |run|
    requires id in Pool(run[i].pools, model)
    ensures id in run[i].entries
    ensures run[i].entries[id].state != Assembling ==>
              var machine := MachineAt(run[i].machines, run[i].entries[id].launcherEndpoint);
              && (machine.agent == None || machine.agent == Some(model))
              && forall k :: 0 <= k < |machine.queue| && machine.queue[k].Post? ==> machine.queue[k].model == model
  {
    EveryStateKeepsInv(w, run, labels, i);
    assert Live(run[i].pools, model, id) && HostOk(run[i], model, id);
  }

  // Reservations: an assembling entry always belongs to exactly one assembly in flight, which will settle it.
  lemma {:induction false} NoOrphanReservation(w: World, run: seq<State>, labels: seq<Step>, i: nat, model: string,
      id: Uid)
    requires IsRun(w, run, labels) && i < |run|
    requires id in Pool(run[i].pools, model)
    ensures id in run[i].entries
    ensures run[i].entries[id].state == Assembling ==>
              (ColdAwaits(run[i], model, id) && !TickAwaits(run[i], model, id))
              || (TickAwaits(run[i], model, id) && !ColdAwaits(run[i], model, id))
  {
    EveryStateKeepsInv(w, run, labels, i);
    assert Live(run[i].pools, model, id) && ColdOk(run[i], model);
  }

  // ---------------------------------------------------------------- pool size

  // One while a cold start is replacing an entry that still stands in the pool.
  ghost function Replacing(s: State, model: string): nat {
    if model in s.coldStarts && s.coldStarts[model].tracked.Some?
        && Live(s.pools, model, s.coldStarts[model].tracked.value)
    then 1 else 0
  }

  ghost function Unspent(s: State, model: string): nat {
    CountFor(UnspentClaims(s.tick), model)
  }

  // `commits`: the background tick may also commit claims.
  ghost predicate SizeOk(w: World, s: State, commits: bool, model: string) {
    && |Pool(s.pools, model)| + (if commits then Unspent(s, model) else 0)
       <= MaxPipelines(w.catalog, model) + (if commits then 1 else 0) + Replacing(s, model)
    && Unspent(s, model) <= MaxPipelines(w.catalog, model)
  }

  lemma {:induction false} StepKeepsSize(w: World, s: State, step: Step, commits: bool, model: string)
    requires DistinctIds(w.catalog) && Inv(w, s) && Possible(w, s, step) && SizeOk(w, s, commits, model)
    requires step.Commit? ==> commits
    ensures SizeOk(w, Apply(w, s, step), commits, model)
  {
    match step
    case BeginColdStart(m, v) => BeginSize(w, s, m, v, commits, model);
    case SettleColdStart(m, ok, v) =>
      var c := s.coldStarts[m];
      if !ok {
        FailSize(w, s, m, v, commits, model);
      } else if c.tracked.Some? && s.entries[c.tracked.value].launcherId != c.launcher.launcherId {
        StopOldSize(w, s, m, v, commits, model);
      } else {
        FinishSize(w, s, m, v.now, commits, model);
      }
    case OldLauncherStopped(m, v) => FinishSize(w, s, m, v.now, commits, model);
    case TornDown => TornDownSize(w, s, commits, model);
    case Plan(v, demand, perPipeline, claims) => PlanSize(w, s, v, demand, perPipeline, claims, commits, model);
    case Commit(v) => CommitSize(w, s, v, model);
    case SettleClaim(ok, now) => SettleClaimSize(w, s, ok, now, commits, model);
    case _ => QuietSize(w, s, step, commits, model);
  }

  // Steps that leave every pool, every replacement and the plan as they are.
  lemma {:induction false} QuietSize(w: World, s: State, step: Step, commits: bool, model: string)
    requires Possible(w, s, step) && SizeOk(w, s, commits, model)
    requires step.Use? || step.FailForward? || step.BeginTick? || step.CheckNext? || step.EndTick?
             || step.LauncherHandles? || step.AgentExits? || step.LauncherRestarts?
    ensures SizeOk(w, Apply(w, s, step), commits, model)
  {
    hide SizeOk;
    SameSize(w, s, Apply(w, s, step), commits, model);
  }

  lemma {:induction false} SameSize(w: World, s: State, s': State, commits: bool, model: string)
    requires SizeOk(w, s, commits, model)
    requires s'.pools == s.pools && s'.coldStarts == s.coldStarts && UnspentClaims(s'.tick) == UnspentClaims(s.tick)
    ensures SizeOk(w, s', commits, model)
  {
  }

  lemma {:induction false} StopOldSize(w: World, s: State, m: string, v: View, commits: bool, model: string)
    requires Refs(s) && m in s.coldStarts && SizeOk(w, s, commits, model)
    requires var c := s.coldStarts[m]; c.tracked.Some? && s.entries[c.tracked.value].launcherId != c.launcher.launcherId
    ensures SizeOk(w, ColdSettle(w, s, m, true, v), commits, model)
  {
  }

  lemma {:induction false} PlanSize(w: World, s: State, v: View, demand: map<string, nat>, perPipeline: real,
                                    claims: seq<PipelineClaim>, commits: bool, model: string)
    requires DistinctIds(w.catalog) && perPipeline > 0.0 && Refs(s) && Usable(v)
    requires IsPlan(w, s, v, demand, perPipeline, claims) && s.tick.Checking?
    requires SizeOk(w, s, commits, model)
    ensures SizeOk(w, s.(tick := Allocating(claims, {})), commits, model)
  {
    PlanCount(w, s, v, demand, perPipeline, claims, model);
  }

  lemma {:induction false} SettleClaimSize(w: World, s: State, ok: bool, now: int, commits: bool, model: string)
    requires Inv(w, s) && s.tick.Awaiting? && SizeOk(w, s, commits, model)
    ensures SizeOk(w, TickSettle(w, s, ok, now), commits, model)
  {
    Removed(s, s.tick.claim.modelId, s.tick.reservation);
    var s' := TickSettle(w, s, ok, now);
    assert s'.coldStarts == s.coldStarts;
    assert ColdOk(s, model);
  }

  lemma {:induction false} BeginSize(w: World, s: State, m: string, v: View, commits: bool, model: string)
    requires Refs(s) && SizeOk(w, s, commits, model)
    ensures SizeOk(w, ColdBegin(w, s, m, v), commits, model)
  {
  }

  lemma {:induction false} FailSize(w: World, s: State, m: string, v: View, commits: bool, model: string)
    requires Inv(w, s) && m in s.coldStarts && SizeOk(w, s, commits, model)
    ensures SizeOk(w, ColdSettle(w, s, m, false, v), commits, model)
  {
    assert ColdOk(s, m);
    Removed(s, m, s.coldStarts[m].reservation);
    assert ColdSettle(w, s, m, false, v).pools == RemoveEntry(s, m, s.coldStarts[m].reservation).pools;
  }

  lemma {:induction false} TornDownSize(w: World, s: State, commits: bool, model: string)
    requires Inv(w, s) && s.tick.TearingDown? && SizeOk(w, s, commits, model)
    ensures SizeOk(w, TickTornDown(s), commits, model)
  {
    Removed(s, s.tick.model, s.tick.victim);
  }

  lemma {:induction false} CommitSize(w: World, s: State, v: View, model: string)
    requires PoolsOk(w, s) && Possible(w, s, Commit(v)) && SizeOk(w, s, true, model)
    ensures SizeOk(w, Apply(w, s, Commit(v)), true, model)
  {
    CommitGrows(w, s, v, model);
    UnspentShrinks(w, s, v, model);
    hide Possible, Apply, Unspent, Replacing, MaxPipelines, PoolsOk, TickCommit;
  }

  lemma {:induction false} FinishSize(w: World, s: State, m: string, now: int, commits: bool, model: string)
    requires Inv(w, s) && m in s.coldStarts && SizeOk(w, s, commits, model)
    ensures SizeOk(w, ColdFinish(w, s, m, now), commits, model)
  {
    var c := s.coldStarts[m];
    assert ColdOk(s, m);
    var s1 := if c.tracked.Some? then RemoveEntry(s, m, c.tracked.value) else s;
    if c.tracked.Some? {
      Removed(s, m, c.tracked.value);
    }
    Removed(s1, m, c.reservation);
  }

  // A plan only fills a pool up to its model's ceiling.
  lemma {:induction false} PlanCount(w: World, s: State, v: View, demand: map<string, nat>, perPipeline: real,
                                     claims: seq<PipelineClaim>, model: string)
    requires DistinctIds(w.catalog) && perPipeline > 0.0 && Refs(s) && Usable(v)
    requires IsPlan(w, s, v, demand, perPipeline, claims)
    ensures CountFor(claims, model) <= MaxPipelines(w.catalog, model)
    ensures CountFor(claims, model) > 0
        ==> |Pool(s.pools, model)| + CountFor(claims, model) <= MaxPipelines(w.catalog, model)
  {
    hide Snapshots, ClaimedLauncherIds, LaunchersFor, PlanOf, CountFor, MaxPipelines, MultiPipelineModelIds;
    var models := MultiPipelineModelIds(w.catalog);
    var snapshots := Snapshots(w, s, models, demand, perPipeline);
    SnapshotsFacts(w, s, models, demand, perPipeline);
    PlannedClaimsOk(w, s, v, demand, perPipeline, claims);
    if model !in models {
      CountForNone(claims, model);
    } else {
      var i :| 0 <= i < |models| && models[i] == model;
      SnapshotsAreDistinct(w, s, demand, perPipeline);
      PlanOfIsGreedy(snapshots, LaunchersFor(v.launchers), ClaimedLauncherIds(w, s, None));
      assert snapshots[i] in snapshots;
      assert CountFor(claims, snapshots[i].modelId) <= Max(0, Deficit(snapshots[i]));
    }
  }

  lemma {:induction false} SnapshotsAreDistinct(w: World, s: State, demand: map<string, nat>, perPipeline: real)
    requires DistinctIds(w.catalog) && perPipeline > 0.0
    ensures DistinctModels(Snapshots(w, s, MultiPipelineModelIds(w.catalog), demand, perPipeline))
  {
    var models := MultiPipelineModelIds(w.catalog);
    var snapshots := Snapshots(w, s, models, demand, perPipeline);
    SnapshotsFacts(w, s, models, demand, perPipeline);
    TrackedIdsAreDistinct(w.catalog);
    forall i, j | 0 <= i < j < |snapshots| ensures snapshots[i] != snapshots[j] {
      assert models[i] != models[j];
    }
    NoDupMultiset(snapshots);
    forall a, b | a in snapshots && b in snapshots && a.modelId == b.modelId ensures a == b {
      var i :| 0 <= i < |snapshots| && snapshots[i] == a;
      var j :| 0 <= j < |snapshots| && snapshots[j] == b;
      assert models[i] == models[j];
    }
  }

  lemma {:induction false} EveryStateKeepsSize(w: World, run: seq<State>, labels: seq<Step>, i: nat, commits: bool,
      model: string)
    requires DistinctIds(w.catalog) && IsRun(w, run, labels) && i < |run|
    requires commits || forall k :: 0 <= k < i ==> !labels[k].Commit?
    ensures SizeOk(w, run[i], commits, model)
  {
    if i == 0 {
      EmptyIsSmall(w, model);
    } else {
      hide Inv, Possible, Apply, SizeOk;
      assert Leads(w, run[i - 1], labels[i - 1], run[i]);
      EveryStateKeepsSize(w, run, labels, i - 1, commits, model);
      EveryStateKeepsInv(w, run, labels, i - 1);
      StepKeepsSize(w, run[i - 1], labels[i - 1], commits, model);
    }
  }

  // Under any interleaving, a pool together with what the current plan may still add to it stays within the
  // ceiling plus one, plus one more while a replacement is in flight.
  lemma {:induction false} PoolSizeBound(w: World, run: seq<State>, labels: seq<Step>, i: nat, model: string)
    requires DistinctIds(w.catalog) && IsRun(w, run, labels) && i < |run|
    ensures |Pool(run[i].pools, model)| + Unspent(run[i], model) <= MaxPipelines(w.catalog, model) + 1
        + Replacing(run[i], model)
    ensures |Pool(run[i].pools, model)| + Unspent(run[i], model) <= 2 * MaxPipelines(w.catalog, model) + 1
  {
    EveryStateKeepsSize(w, run, labels, i, true, model);
  }

  // With cold starts and teardowns alone the ceiling holds, but for a replacement in flight.
  lemma {:induction false} PoolSizeBoundWithoutCommits(w: World, run: seq<State>, labels: seq<Step>, i: nat,
      model: string)
    requires DistinctIds(w.catalog) && IsRun(w, run, labels) && i < |run|
    requires forall k :: 0 <= k < i ==> !labels[k].Commit?
    ensures |Pool(run[i].pools, model)| <= MaxPipelines(w.catalog, model) + Replacing(run[i], model)
  {
    EveryStateKeepsSize(w, run, labels, i, false, model);
  }

  // ---------------------------------------------------------------- when the ceiling is kept

  // The tick reserves a launcher for the model.
  ghost predicate CommitsFor(w: World, s: State, step: Step, model: string) {
    Possible(w, s, step) && step.Commit? && s.tick.claims[0].modelId == model && Apply(w, s, step).tick.Awaiting?
  }

  // The check that the tick's commit does not make: the pool has room.
  ghost predicate HasRoom(w: World, s: State, model: string) {
    |Pool(s.pools, model)| < MaxPipelines(w.catalog, model) + Replacing(s, model)
  }

  ghost predicate WithinCeiling(w: World, s: State, model: string) {
    |Pool(s.pools, model)| <= MaxPipelines(w.catalog, model) + Replacing(s, model)
  }

  // A commit grows the pool of its claim's model by one, or no pool at all.
  lemma {:induction false} CommitGrows(w: World, s: State, v: View, model: string)
    requires PoolsOk(w, s) && Possible(w, s, Commit(v))
    ensures var s' := Apply(w, s, Commit(v));
            && |Pool(s'.pools, model)| == |Pool(s.pools, model)| + (if CommitsFor(w, s, Commit(v), model) then 1 else 0)
            && Replacing(s', model) == Replacing(s, model)
  {
    hide ClaimedLauncherIds, ColdBegin, ColdSettle, TickSettle, TickTornDown, TickCheck, ForwardFailed, IsPlan;
    var s' := TickCommit(w, s, v);
    var m := s.tick.claims[0].modelId;
    assert s'.coldStarts == s.coldStarts;
    if s'.tick.Awaiting? {
      assert s'.pools == s.pools[m := Pool(s.pools, m) + [s.nextId]];
      assert model in s.coldStarts && s.coldStarts[model].tracked.Some?
          ==> s.coldStarts[model].tracked.value in s.entries;
    } else {
      assert s'.pools == s.pools;
    }
  }

  lemma {:induction false} CommitWithRoom(w: World, s: State, v: View, model: string)
    requires PoolsOk(w, s) && Possible(w, s, Commit(v)) && SizeOk(w, s, false, model)
    requires CommitsFor(w, s, Commit(v), model) ==> HasRoom(w, s, model)
    ensures SizeOk(w, Apply(w, s, Commit(v)), false, model)
  {
    hide CommitsFor, Replacing;
    CommitGrows(w, s, v, model);
    hide TickCommit;
    UnspentShrinks(w, s, v, model);
  }

  lemma {:induction false} UnspentShrinks(w: World, s: State, v: View, model: string)
    requires Possible(w, s, Commit(v))
    ensures Unspent(s, model)
        == Unspent(Apply(w, s, Commit(v)), model) + if s.tick.claims[0].modelId == model then 1 else 0
  {
    hide ClaimedLauncherIds, ColdBegin, ColdSettle, TickSettle, TickTornDown, TickCheck, ForwardFailed, IsPlan;
    CountForHead(s.tick.claims, model);
    assert UnspentClaims(TickCommit(w, s, v).tick) == s.tick.claims[1..];
  }

  lemma {:induction false} RoomKeepsSize(w: World, run: seq<State>, labels: seq<Step>, i: nat, model: string)
    requires DistinctIds(w.catalog) && IsRun(w, run, labels) && i < |run|
    requires forall k :: 0 <= k < |labels| && CommitsFor(w, run[k], labels[k], model) ==> HasRoom(w, run[k], model)
    ensures SizeOk(w, run[i], false, model)
  {
    hide Inv, Possible, Apply, CommitsFor, HasRoom, SizeOk;
    if i == 0 {
      EmptyIsSmall(w, model);
    } else {
      assert Leads(w, run[i - 1], labels[i - 1], run[i]);
      RoomKeepsSize(w, run, labels, i - 1, model);
      EveryStateKeepsInv(w, run, labels, i - 1);
      OneStepWithRoom(w, run[i - 1], labels[i - 1], model);
    }
  }

  lemma {:induction false} EmptyIsSmall(w: World, model: string)
    ensures SizeOk(w, INITIAL, false, model) && SizeOk(w, INITIAL, true, model)
  {
  }

  lemma {:induction false} OneStepWithRoom(w: World, s: State, step: Step, model: string)
    requires DistinctIds(w.catalog) && Inv(w, s) && Possible(w, s, step) && SizeOk(w, s, false, model)
    requires CommitsFor(w, s, step, model) ==> HasRoom(w, s, model)
    ensures SizeOk(w, Apply(w, s, step), false, model)
  {
    hide Possible, Apply, CommitsFor, HasRoom, SizeOk, FramesOk, HostsOk, Exclusive, QueueOk;
    if step.Commit? {
      CommitWithRoom(w, s, step.v, model);
    } else {
      StepKeepsSize(w, s, step, false, model);
    }
  }

  // Exactly when a model's ceiling is kept throughout a run: whenever the tick reserves a launcher for the model, its
  // pool must have room at that moment.
  lemma {:induction false} CeilingIsKeptIff(w: World, run: seq<State>, labels: seq<Step>, model: string)
    requires DistinctIds(w.catalog) && IsRun(w, run, labels)
    ensures (forall i :: 0 <= i < |run| ==> WithinCeiling(w, run[i], model))
       <==> (forall k :: 0 <= k < |labels| && CommitsFor(w, run[k], labels[k], model) ==> HasRoom(w, run[k], model))
  {
    hide Possible, Apply, CommitsFor, Inv, SizeOk;
    if forall k :: 0 <= k < |labels| && CommitsFor(w, run[k], labels[k], model) ==> HasRoom(w, run[k], model) {
      forall i | 0 <= i < |run| ensures WithinCeiling(w, run[i], model) {
        RoomKeepsSize(w, run, labels, i, model);
        SizeIsWithin(w, run[i], model);
      }
    }
    if forall i :: 0 <= i < |run| ==> WithinCeiling(w, run[i], model) {
      forall k | 0 <= k < |labels| && CommitsFor(w, run[k], labels[k], model) ensures HasRoom(w, run[k], model) {
        EveryStateKeepsInv(w, run, labels, k);
        assert WithinCeiling(w, run[k + 1], model);
        RoomWasNeeded(w, run[k], labels[k], model);
      }
    }
  }

  lemma {:induction false} SizeIsWithin(w: World, s: State, model: string)
    requires SizeOk(w, s, false, model)
    ensures WithinCeiling(w, s, model)
  {
  }

  lemma {:induction false} RoomWasNeeded(w: World, s: State, step: Step, model: string)
    requires Inv(w, s) && CommitsFor(w, s, step, model) && WithinCeiling(w, Apply(w, s, step), model)
    ensures HasRoom(w, s, model)
  {
    hide FramesOk, HostsOk, Exclusive, QueueOk, TickCommit;
    CommitGrows(w, s, step.v, model);
  }
}
