// When the coordinator assembles a pipeline: the decisions of the request path and of the tick in terms of the pools,
// and what a tick's plan leaves undone.
module PoolDecisions {
  import opened Options
  import opened Seqs
  import opened Catalog
  import opened Launchers
  import opened AllocationPlanner
  import opened PoolProtocol
  import opened PoolInvariant
  import opened PoolSteps
  import opened PoolTheorems
  import opened PoolMachines
  import opened PoolHealth

  // ---------------------------------------------------------------- launchers in use

  // An entry and a launcher that have a name in common.
  predicate NamesLauncher(e: Entry, l: LauncherInfo) {
    e.launcherId in Names(l) || e.launcherEndpoint in Names(l)
  }

  // Some pool entry other than the exempt one is on the launcher.
  ghost predicate InUse(s: State, l: LauncherInfo, exempt: Option<Uid>) {
    exists m, id :: Live(s.pools, m, id) && id in s.entries && exempt != Some(id) && NamesLauncher(s.entries[id], l)
  }

  lemma {:induction false} ClaimedIffInUse(w: World, s: State, l: LauncherInfo, exempt: Option<Uid>)
    requires PoolsOk(w, s)
    ensures IsLauncherClaimed(ClaimedLauncherIds(w, s, exempt), l) <==> InUse(s, l, exempt)
  {
    hide NoDup;
    var claimed := ClaimedLauncherIds(w, s, exempt);
    if n :| n in Names(l) && n in claimed {
      var m, id :| m in MultiPipelineModelIds(w.catalog) && Live(s.pools, m, id) && exempt != Some(id)
                   && n in EntryNames(s.entries[id]);
      assert NamesLauncher(s.entries[id], l);
    }
    if m, id :| Live(s.pools, m, id) && id in s.entries && exempt != Some(id) && NamesLauncher(s.entries[id], l) {
      var e := s.entries[id];
      assert EntryNames(e) == {e.launcherId, e.launcherEndpoint};
      assert forall n :: n in EntryNames(e) ==> n in claimed;
    }
  }

  // The first registered launcher that serves the model and is not in use.
  ghost predicate FirstIdle(s: State, launchers: seq<LauncherInfo>, model: string, exempt: Option<Uid>, k: int) {
    && 0 <= k < |launchers| && model in launchers[k].servesModels && !InUse(s, launchers[k], exempt)
    && forall j :: 0 <= j < k && model in launchers[j].servesModels ==> InUse(s, launchers[j], exempt)
  }

  lemma {:induction false} FirstFreeIffIdle(w: World, s: State, launchers: seq<LauncherInfo>, model: string,
      exempt: Option<Uid>)
    requires PoolsOk(w, s)
    ensures match FirstFree(ListForModel(launchers, model), ClaimedLauncherIds(w, s, exempt))
            case Some(l) => exists k :: FirstIdle(s, launchers, model, exempt, k) && launchers[k] == l
            case None => forall k :: !FirstIdle(s, launchers, model, exempt, k)
  {
    var claimed := ClaimedLauncherIds(w, s, exempt);
    hide PoolsOk, ClaimedLauncherIds, InUse;
    if launchers != [] {
      var l, rest := launchers[0], launchers[1..];
      FirstFreeIffIdle(w, s, rest, model, exempt);
      ClaimedIffInUse(w, s, l, exempt);
      ListHead(launchers, model);
      if model in l.servesModels && !InUse(s, l, exempt) {
        assert FirstIdle(s, launchers, model, exempt, 0);
      } else {
        forall k ensures FirstIdle(s, launchers, model, exempt, k) <==> FirstIdle(s, rest, model, exempt, k - 1) {
          IdleOfRest(s, launchers, model, exempt, k);
        }
        var free := FirstFree(ListForModel(rest, model), claimed);
        if k :| FirstIdle(s, rest, model, exempt, k) && free == Some(rest[k]) {
          assert FirstIdle(s, launchers, model, exempt, k + 1);
        }
      }
    }
  }

  lemma {:induction false} ListHead(launchers: seq<LauncherInfo>, model: string)
    requires launchers != []
    ensures ListForModel(launchers, model) == if model in launchers[0].servesModels
              then [launchers[0]] + ListForModel(launchers[1..], model) else ListForModel(launchers[1..], model)
    ensures forall rest: seq<LauncherInfo> :: ([launchers[0]] + rest)[1..] == rest
  {
  }

  lemma {:induction false} IdleOfRest(s: State, launchers: seq<LauncherInfo>, model: string, exempt: Option<Uid>,
      k: int)
    requires launchers != [] && (model in launchers[0].servesModels ==> InUse(s, launchers[0], exempt))
    ensures FirstIdle(s, launchers, model, exempt, k) <==> FirstIdle(s, launchers[1..], model, exempt, k - 1)
  {
    hide InUse;
    var rest := launchers[1..];
    if FirstIdle(s, rest, model, exempt, k - 1) {
      assert forall j :: 0 < j < k ==> launchers[j] == rest[j - 1];
    }
    if FirstIdle(s, launchers, model, exempt, k) {
      assert forall j :: 0 <= j < k - 1 ==> rest[j] == launchers[j + 1];
    }
  }

  // ---------------------------------------------------------------- the request path

  // A model wants a cold start: it needs several nodes, none of its entries is being assembled, its oldest entry is not
  // warm on an active driver, and its pool has room, the oldest entry not counted.
  ghost predicate WantsColdStart(w: World, s: State, model: string, active: set<string>)
    requires Refs(s)
  {
    var pool := Pool(s.pools, model);
    && model !in s.coldStarts && RequiredNodeCount(w.catalog, model) > 1
    && (forall id :: Live(s.pools, model, id) ==> s.entries[id].state != Assembling)
    && (Live(s.pools, model, Oldest(s, model)) ==>
          var e := s.entries[Oldest(s, model)]; !(e.state == Warm && e.driverNodeId in active))
    && |pool| < MaxPipelines(w.catalog, model) + if pool == [] then 0 else 1
  }

  function Oldest(s: State, model: string): Uid {
    if Pool(s.pools, model) == [] then s.nextId else Pool(s.pools, model)[0]
  }

  // What a cold start on launcher `l` leaves behind.
  ghost predicate StartedOn(s: State, s': State, model: string, l: LauncherInfo, v: View)
    requires v.selection.Some?
  {
    && ReservedOn(s, s', model, l, v.now) && s'.tick == s.tick
    && s'.coldStarts == s.coldStarts[model := ColdStart(s.nextId, l, Tracked(s, model), v.selection.value, Posting)]
  }

  // A reservation of launcher `l` stands last in the model's pool, and its POST was sent.
  ghost predicate ReservedOn(s: State, s': State, model: string, l: LauncherInfo, now: int) {
    var r := s.nextId;
    && s'.pools == s.pools[model := Pool(s.pools, model) + [r]]
    && s'.entries == s.entries[r := Entry("", [], l.launcherId, l.endpoint, Assembling, now)]
    && MachineAt(s'.machines, l.endpoint).queue == MachineAt(s.machines, l.endpoint).queue + [Post(model, r)]
    && s'.nextId == r + 1 && s'.replies == s.replies
  }

  // A request starts a cold start if and only if the model wants one, a pipeline can be selected, and there is an idle
  // launcher, the first of which would spawn a trusted driver. The oldest entry's launcher counts as idle. Otherwise
  // nothing happens.
  lemma {:induction false} ColdStartIff(w: World, s: State, model: string, v: View)
    requires Inv(w, s) && Possible(w, s, BeginColdStart(model, v))
    ensures var s' := Apply(w, s, BeginColdStart(model, v));
            if WantsColdStart(w, s, model, v.active) && v.selection.Some?
               && exists k :: FirstIdle(s, v.launchers, model, Tracked(s, model), k)
                              && w.driverOf(v.launchers[k]) in v.trusted
            then exists k :: FirstIdle(s, v.launchers, model, Tracked(s, model), k)
                             && StartedOn(s, s', model, v.launchers[k], v)
            else s' == s
  {
    hide FramesOk, Exclusive, HostsOk, QueueOk;
    FirstFreeIffIdle(w, s, v.launchers, model, Tracked(s, model));
    OnlyFirst(s, v.launchers, model, Tracked(s, model));
    hide FirstIdle, PoolsOk, FirstFree, ClaimedLauncherIds, MaxPipelines, RequiredNodeCount;
    ChoiceIff(w, s, model, v);
    hide ColdChoice, WantsColdStart;
    var choice := ColdChoice(w, s, model, v);
    if choice.Some? {
      BeganOn(w, s, model, v);
    }
  }

  lemma {:induction false} OnlyFirst(s: State, launchers: seq<LauncherInfo>, model: string, exempt: Option<Uid>)
    ensures forall j, k :: FirstIdle(s, launchers, model, exempt, j) && FirstIdle(s, launchers, model, exempt, k)
              ==> j == k
  {
    hide InUse;
  }

  lemma {:induction false} ChoiceIff(w: World, s: State, model: string, v: View)
    requires Refs(s)
    ensures ColdChoice(w, s, model, v)
        == if !WantsColdStart(w, s, model, v.active) then None
           else match FirstFree(ListForModel(v.launchers, model), ClaimedLauncherIds(w, s, Tracked(s, model)))
                case None => None
                case Some(l) => if v.selection.Some? && w.driverOf(l) in v.trusted then Some(l) else None
  {
    hide ClaimedLauncherIds, ListForModel, FirstFree, MaxPipelines, RequiredNodeCount;
    assert Pool(s.pools, model) != [] ==> Live(s.pools, model, Oldest(s, model));
  }

  lemma {:induction false} BeganOn(w: World, s: State, model: string, v: View)
    requires Refs(s) && ColdChoice(w, s, model, v).Some? && v.selection.Some?
    ensures StartedOn(s, ColdBegin(w, s, model, v), model, ColdChoice(w, s, model, v).value, v)
  {
    hide ColdChoice;
  }

  // ---------------------------------------------------------------- the tick's commits

  // The tick reserves the launcher of its next claim if and only if no earlier claim of the model went wrong in this
  // tick, a pipeline can be selected, the launcher would spawn a trusted driver, and no pool entry is on it by now.
  // Otherwise the claim is dropped, and the model's later ones will be.
  lemma {:induction false} CommitIff(w: World, s: State, v: View)
    requires Inv(w, s) && Possible(w, s, Commit(v))
    ensures var s', t := Apply(w, s, Commit(v)), s.tick;
            var c := t.claims[0];
            if c.modelId !in t.failed && v.selection.Some? && w.driverOf(c.launcher) in v.trusted
               && !InUse(s, c.launcher, None)
            then ReservedOn(s, s', c.modelId, c.launcher, v.now) && s'.coldStarts == s.coldStarts
                 && s'.tick == Awaiting(c, s.nextId, v.selection.value, t.claims[1..], t.failed)
            else s' == s.(tick := Allocating(t.claims[1..], t.failed + {c.modelId}))
  {
    hide FramesOk, Exclusive, HostsOk, QueueOk, NoDup;
    ClaimedIffInUse(w, s, s.tick.claims[0].launcher, None);
    hide ClaimedLauncherIds, InUse, PoolsOk, ColdBegin, ColdSettle, ColdFinish, TickCheck, TickSettle, TickTornDown,
      ForwardFailed, IsPlan, Handle;
    assert s.tick.claims[0].modelId in s.tick.failed ==> s.tick.failed + {s.tick.claims[0].modelId} == s.tick.failed;
  }

  // A claim of the model went wrong: it could not be committed, or its POST failed.
  ghost predicate GoesWrong(s: State, step: Step, s': State, m: string) {
    match step
    case Commit(_) => s.tick.Allocating? && s.tick.claims != [] && s.tick.claims[0].modelId == m && s'.tick.Allocating?
    case SettleClaim(ok, _) => !ok && s.tick.Awaiting? && s.tick.claim.modelId == m
    case _ => false
  }

  ghost predicate GivenUp(t: Tick, m: string) {
    (t.Allocating? || t.Awaiting?) && m in t.failed
  }

  lemma {:induction false} StaysGivenUp(w: World, s: State, step: Step, m: string)
    requires Possible(w, s, step) && !step.EndTick?
    requires GoesWrong(s, step, Apply(w, s, step), m) || GivenUp(s.tick, m)
    ensures GivenUp(Apply(w, s, step).tick, m)
  {
    if OfTick(step) {
      hide ColdBegin, ColdSettle, ColdFinish, ForwardFailed, TickCheck, IsPlan, Handle, ClaimedLauncherIds;
    } else {
      hide Possible, Apply;
      TickUntouched(w, s, step);
    }
  }

  // Once a claim of a model went wrong, the tick reserves nothing more for it.
  lemma {:induction false} FailedModelRests(w: World, run: seq<State>, labels: seq<Step>, a: nat, k: nat, m: string)
    requires IsRun(w, run, labels) && a < k < |labels| && GoesWrong(run[a], labels[a], run[a + 1], m)
    requires forall x :: a < x < k ==> !labels[x].EndTick?
    ensures !CommitsFor(w, run[k], labels[k], m)
  {
    hide Possible, Apply;
    GivenUpUpTo(w, run, labels, a, k, m);
    if CommitsFor(w, run[k], labels[k], m) {
      NoCommitOfGivenUp(w, run[k], labels[k], m);
    }
  }

  lemma {:induction false} NoCommitOfGivenUp(w: World, s: State, step: Step, m: string)
    requires GivenUp(s.tick, m)
    ensures !CommitsFor(w, s, step, m)
  {
    hide ClaimedLauncherIds;
  }

  lemma {:induction false} GivenUpUpTo(w: World, run: seq<State>, labels: seq<Step>, a: nat, k: nat, m: string)
    requires IsRun(w, run, labels) && a < k < |labels| && GoesWrong(run[a], labels[a], run[a + 1], m)
    requires forall x :: a < x < k ==> !labels[x].EndTick?
    ensures GivenUp(run[k].tick, m)
    decreases k
  {
    hide Possible, Apply;
    assert Leads(w, run[k - 1], labels[k - 1], run[k]);
    if k > a + 1 {
      GivenUpUpTo(w, run, labels, a, k - 1, m);
    }
    StaysGivenUp(w, run[k - 1], labels[k - 1], m);
  }

  // ---------------------------------------------------------------- the tick's plan

  function DemandOf(demand: map<string, nat>, m: string): nat {
    if m in demand then demand[m] else 0
  }

  lemma {:induction false} SnapshotAt(w: World, s: State, models: seq<string>, demand: map<string, nat>,
      perPipeline: real, i: nat)
    requires perPipeline > 0.0 && i < |models|
    ensures |Snapshots(w, s, models, demand, perPipeline)| == |models|
    ensures var m := models[i];
            Snapshots(w, s, models, demand, perPipeline)[i] == PoolDemandSnapshot(m, DemandOf(demand, m),
                |Pool(s.pools, m)|, DesiredPipelineCount(DemandOf(demand, m), MaxPipelines(w.catalog, m),
                    RequiredNodeCount(w.catalog, m), perPipeline))
  {
    if i > 0 {
      SnapshotAt(w, s, models[1..], demand, perPipeline, i - 1);
    } else if |models| > 1 {
      SnapshotAt(w, s, models[1..], demand, perPipeline, 0);
    }
  }

  // This many pipelines meet the model's demand, as far as its ceiling allows.
  ghost predicate Suffices(w: World, model: string, demand: nat, perPipeline: real, n: int) {
    n >= 1 && (n >= MaxPipelines(w.catalog, model) || n as real * perPipeline >= demand as real)
  }

  // The launcher is in use, or planned for a model of at least this demand.
  ghost predicate Taken(s: State, l: LauncherInfo, claims: seq<PipelineClaim>, demand: map<string, nat>, least: nat) {
    || InUse(s, l, None)
    || exists k :: 0 <= k < |claims| && Conflict(claims[k].launcher, l) && DemandOf(demand, claims[k].modelId) >= least
  }

  // What a plan achieves: with its claims a model has as many pipelines as its demand asks for, or else every launcher
  // that serves the model is taken; and no claim is more than the demand asks for.
  lemma {:induction false} PlanMeetsDemand(w: World, s: State, v: View, demand: map<string, nat>, perPipeline: real,
      claims: seq<PipelineClaim>, model: string)
    requires DistinctIds(w.catalog) && Inv(w, s) && Possible(w, s, Plan(v, demand, perPipeline, claims))
    requires RequiredNodeCount(w.catalog, model) > 1
    ensures var n := |Pool(s.pools, model)| + CountFor(claims, model);
            && (Suffices(w, model, DemandOf(demand, model), perPipeline, n)
                || forall l :: l in v.launchers && model in l.servesModels
                      ==> Taken(s, l, claims, demand, DemandOf(demand, model)))
            && (CountFor(claims, model) > 0 ==>
                  n == 1 || !Suffices(w, model, DemandOf(demand, model), perPipeline, n - 1))
  {
    PlanIsMade(w, s, v, demand, perPipeline, claims);
    hide Possible, Inv, PoolsOk, DistinctIds, IsPlan, Taken, CountFor, DesiredPipelineCount, RequiredNodeCount,
      Suffices, MaxPipelines, DemandOf, Pool;
    var desired := PlanFillsUp(w, s, v, demand, perPipeline, claims, model);
    var n := |Pool(s.pools, model)| + CountFor(claims, model);
    assert Suffices(w, model, DemandOf(demand, model), perPipeline, n) <==> n >= desired;
    assert Suffices(w, model, DemandOf(demand, model), perPipeline, n - 1) <==> n - 1 >= desired;
  }

  lemma {:induction false} PlanIsMade(w: World, s: State, v: View, demand: map<string, nat>, perPipeline: real,
      claims: seq<PipelineClaim>)
    requires Inv(w, s) && Possible(w, s, Plan(v, demand, perPipeline, claims))
    ensures PoolsOk(w, s) && perPipeline > 0.0 && IsPlan(w, s, v, demand, perPipeline, claims)
  {
    hide FramesOk, Exclusive, HostsOk, QueueOk, IsPlan;
  }

  // Exactly the numbers from the desired one on suffice.
  lemma {:induction false} SufficesIff(w: World, model: string, d: nat, perPipeline: real, n: int)
    requires perPipeline > 0.0 && RequiredNodeCount(w.catalog, model) > 1
    ensures Suffices(w, model, d, perPipeline, n)
       <==> n >= DesiredPipelineCount(d, MaxPipelines(w.catalog, model), RequiredNodeCount(w.catalog, model),
           perPipeline)
  {
    DesiredIsLeast(d, MaxPipelines(w.catalog, model), RequiredNodeCount(w.catalog, model), perPipeline, n);
  }

  lemma {:induction false} PlanFillsUp(w: World, s: State, v: View, demand: map<string, nat>, perPipeline: real,
      claims: seq<PipelineClaim>, model: string)
    returns (desired: nat)
    requires DistinctIds(w.catalog) && PoolsOk(w, s) && perPipeline > 0.0
    requires IsPlan(w, s, v, demand, perPipeline, claims) && RequiredNodeCount(w.catalog, model) > 1
    ensures forall k :: Suffices(w, model, DemandOf(demand, model), perPipeline, k) <==> k >= desired
    ensures var n := |Pool(s.pools, model)| + CountFor(claims, model);
            && (n < desired ==> forall l :: l in v.launchers && model in l.servesModels
                                  ==> Taken(s, l, claims, demand, DemandOf(demand, model)))
            && (CountFor(claims, model) > 0 ==> n <= desired)
  {
    hide NoDup, Snapshots, CountFor, Suffices;
    desired := DesiredPipelineCount(DemandOf(demand, model), MaxPipelines(w.catalog, model),
        RequiredNodeCount(w.catalog, model), perPipeline);
    forall k ensures Suffices(w, model, DemandOf(demand, model), perPipeline, k) <==> k >= desired {
      SufficesIff(w, model, DemandOf(demand, model), perPipeline, k);
    }
    var models := MultiPipelineModelIds(w.catalog);
    var snapshots := Snapshots(w, s, models, demand, perPipeline);
    var claimed := ClaimedLauncherIds(w, s, None);
    MultiNodeModelsAreTracked(w.catalog, model);
    var i :| 0 <= i < |models| && models[i] == model;
    SnapshotAt(w, s, models, demand, perPipeline, i);
    SnapshotsAreDistinct(w, s, demand, perPipeline);
    PlanOfIsGreedy(snapshots, LaunchersFor(v.launchers), claimed);
    hide PlanOf, DistinctIds, DistinctModels, ClaimsAreFree, ServedAtLeast, Unavailable, MaxPipelines,
      RequiredNodeCount, DesiredPipelineCount, MultiPipelineModelIds, ClaimedLauncherIds, ListForModel, Taken, PoolsOk;
    var snapshot := snapshots[i];
    assert snapshot in snapshots && CountFor(claims, model) <= Max(0, Deficit(snapshot));
    if CountFor(claims, model) < Deficit(snapshot) {
      forall l | l in v.launchers && model in l.servesModels
        ensures Taken(s, l, claims, demand, DemandOf(demand, model))
      {
        ListForModelIsListed(v.launchers, model);
        assert l in LaunchersFor(v.launchers)(model);
        assert Unavailable(l, claims, claimed, snapshots, snapshot.demand);
        TakenIfUnavailable(w, s, l, claims, demand, perPipeline, snapshot.demand);
      }
    }
  }

  lemma {:induction false} TakenIfUnavailable(w: World, s: State, l: LauncherInfo, claims: seq<PipelineClaim>,
      demand: map<string, nat>, perPipeline: real, least: nat)
    requires PoolsOk(w, s) && perPipeline > 0.0
    requires Unavailable(l, claims, ClaimedLauncherIds(w, s, None),
                 Snapshots(w, s, MultiPipelineModelIds(w.catalog), demand, perPipeline), least)
    ensures Taken(s, l, claims, demand, least)
  {
    hide NoDup, ClaimedLauncherIds, Snapshots, MultiPipelineModelIds;
    var models := MultiPipelineModelIds(w.catalog);
    var snapshots := Snapshots(w, s, models, demand, perPipeline);
    ClaimedIffInUse(w, s, l, None);
    if k :| 0 <= k < |claims| && Conflict(claims[k].launcher, l) && ServedAtLeast(claims[k], snapshots, least) {
      var t :| t in snapshots && t.modelId == claims[k].modelId && t.demand >= least;
      SnapshotsFacts(w, s, models, demand, perPipeline);
      var j :| 0 <= j < |snapshots| && snapshots[j] == t;
      SnapshotAt(w, s, models, demand, perPipeline, j);
      assert DemandOf(demand, claims[k].modelId) >= least;
    }
  }
}
