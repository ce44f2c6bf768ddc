// The warm-pipeline pool protocol: the request path (coordinator/src/server.ts) and the background tick
// (coordinator/src/pipeline_pool_manager.ts) share one pipeline tracker and hold launcher reservations
// across awaited network calls. A stretch of code between two awaits is one step, or several: the tick's moves from
// its start to its first await, and from one settled claim to the next POST, are steps of their own, and the model
// lets other steps in between them although the program does not. That only adds runs, so what holds in every run
// holds of the program; Atomic tells the runs in which nothing comes in between.
//
// A pool holds references to entry objects: `pools` lists the references (Uid), `entries` is the heap they
// point into. An entry stays on the heap after it leaves its pool, because a tick may still hold it.
module PoolProtocol {
  import opened Options
  import opened Seqs
  import opened Catalog
  import opened Launchers
  import opened AllocationPlanner

  type Uid = nat

  datatype EntryState = Warm | Assembling | Failed

  datatype Entry = Entry(driverNodeId: string, computeNodeIds: seq<string>, launcherId: string,
                         launcherEndpoint: string, state: EntryState, lastUsedAt: int)

  // ---------------------------------------------------------------- launchers as machines

  // `tag` is the reservation on whose behalf the POST was sent.
  datatype Command = Post(model: string, tag: Uid) | Delete

  // A machine handles its commands in the order sent and runs at most one agent.
  datatype Machine = Machine(queue: seq<Command>, agent: Option<string>)

  // How a launcher answers a POST: turned away before touching the old agent, old agent stopped but the
  // new one never healthy, or the new agent running.
  datatype Outcome = Rejected | NeverHealthy | Started

  function Handle(mach: Machine, outcome: Outcome): Machine
    requires mach.queue != []
  {
    match mach.queue[0]
    case Delete => Machine(mach.queue[1..], None)
    case Post(model, _) =>
      match outcome
      case Rejected => Machine(mach.queue[1..], mach.agent)
      case NeverHealthy => Machine(mach.queue[1..], None)
      case Started => Machine(mach.queue[1..], Some(model))
  }

  // ---------------------------------------------------------------- states

  datatype ColdPhase = Posting | Stopping

  // One assemblePipeline call in flight; `tracked` is the entry it may replace.
  datatype ColdStart = ColdStart(reservation: Uid, launcher: LauncherInfo, tracked: Option<Uid>,
                                 contributors: seq<string>, phase: ColdPhase)

  // Where the background tick stands.
  datatype Tick =
    | Idle
    | Checking(models: seq<string>, model: string, todo: seq<Uid>, active: set<string>, now: int)
    | TearingDown(victim: Uid, models: seq<string>, model: string, todo: seq<Uid>, active: set<string>, now: int)
    | Allocating(claims: seq<PipelineClaim>, failed: set<string>)
    | Awaiting(claim: PipelineClaim, reservation: Uid, contributors: seq<string>,
               claims: seq<PipelineClaim>, failed: set<string>)

  datatype State = State(
    pools: map<string, seq<Uid>>,
    entries: map<Uid, Entry>,
    coldStarts: map<string, ColdStart>,
    tick: Tick,
    machines: map<string, Machine>,
    replies: set<Uid>,  // reservations whose POST the launcher has answered with a 200
    nextId: Uid)

  // What never changes: the catalog, the node id of the agent a launcher spawns, and the tuning constants.
  datatype World = World(catalog: ModelCatalog, driverOf: LauncherInfo -> string, idleGraceMs: int)

  // What the registries and the clock answer during one step; nothing is assumed about it except that a
  // registered launcher has an endpoint.
  datatype View = View(active: set<string>, trusted: set<string>, launchers: seq<LauncherInfo>,
                       selection: Option<seq<string>>, now: int)

  predicate Usable(v: View) {
    forall l :: l in v.launchers ==> l.endpoint != ""
  }

  const INITIAL: State := State(map[], map[], map[], Idle, map[], {}, 0)

  // ---------------------------------------------------------------- the tracker

  function Pool(pools: map<string, seq<Uid>>, model: string): seq<Uid> {
    if model in pools then pools[model] else []
  }

  predicate Live(pools: map<string, seq<Uid>>, model: string, id: Uid) {
    id in Pool(pools, model)
  }

  // Every reference points at an entry object.
  ghost predicate Refs(s: State) {
    && (forall m, id :: Live(s.pools, m, id) ==> id in s.entries)
    && (forall m :: m in s.coldStarts ==>
          && s.coldStarts[m].reservation in s.entries
          && (s.coldStarts[m].tracked.Some? ==> s.coldStarts[m].tracked.value in s.entries))
    && (s.tick.Checking? || s.tick.TearingDown? ==> forall id :: id in s.tick.todo ==> id in s.entries)
    && (s.tick.TearingDown? ==> s.tick.victim in s.entries)
    && (s.tick.Awaiting? ==> s.tick.reservation in s.entries)
  }

  function AddEntry(s: State, model: string, id: Uid, e: Entry): State {
    s.(pools := s.pools[model := Pool(s.pools, model) + [id]], entries := s.entries[id := e])
  }

  function RemoveEntry(s: State, model: string, id: Uid): State {
    if model in s.pools then s.(pools := s.pools[model := Without(s.pools[model], id)]) else s
  }

  function MarkFailed(s: State, model: string, id: Uid): State
    requires id in s.entries
  {
    if Live(s.pools, model, id) then s.(entries := s.entries[id := s.entries[id].(state := Failed)]) else s
  }

  // ---------------------------------------------------------------- launchers in use

  function EntryNames(e: Entry): set<string> {
    {e.launcherId} + if e.launcherEndpoint != "" then {e.launcherEndpoint} else {}
  }

  // Every name of a launcher that backs an entry of a tracked model, except the one entry being replaced.
  function ClaimedLauncherIds(w: World, s: State, exclude: Option<Uid>): set<string>
    requires forall m, id :: Live(s.pools, m, id) ==> id in s.entries
  {
    set m, id, n | m in MultiPipelineModelIds(w.catalog) && id in Pool(s.pools, m) && Live(s.pools, m, id)
        && exclude != Some(id)
                   && n in EntryNames(s.entries[id]) :: n
  }

  function ListForModel(launchers: seq<LauncherInfo>, model: string): seq<LauncherInfo> {
    if launchers == [] then []
    else (if model in launchers[0].servesModels then [launchers[0]] else []) + ListForModel(launchers[1..], model)
  }

  // The planner's view of the launcher registry.
  function LaunchersFor(launchers: seq<LauncherInfo>): string -> seq<LauncherInfo> {
    (model: string) => ListForModel(launchers, model)
  }

  function FirstFree(launchers: seq<LauncherInfo>, claimed: set<string>): Option<LauncherInfo> {
    if launchers == [] then None
    else if !IsLauncherClaimed(claimed, launchers[0]) then Some(launchers[0])
    else FirstFree(launchers[1..], claimed)
  }

  // ---------------------------------------------------------------- the network

  function MachineAt(machines: map<string, Machine>, endpoint: string): Machine {
    if endpoint in machines then machines[endpoint] else Machine([], None)
  }

  function Send(s: State, endpoint: string, c: Command): State {
    var mach := MachineAt(s.machines, endpoint);
    s.(machines := s.machines[endpoint := mach.(queue := mach.queue + [c])])
  }

  function EndpointOf(launchers: seq<LauncherInfo>, launcherId: string): Option<string> {
    if launchers == [] then None
    else if launchers[0].launcherId == launcherId then Some(launchers[0].endpoint)
    else EndpointOf(launchers[1..], launcherId)
  }

  // stopLauncherPipeline: the registry's endpoint for the id, else the one recorded at assembly time.
  function StopLauncher(s: State, launchers: seq<LauncherInfo>, e: Entry): State {
    var endpoint := match EndpointOf(launchers, e.launcherId) case Some(x) => x case None => e.launcherEndpoint;
    if endpoint == "" then s else Send(s, endpoint, Delete)
  }

  // ---------------------------------------------------------------- the request path

  // Adds an "assembling" reservation and sends the POST, with no await in between.
  function Reserve(s: State, model: string, l: LauncherInfo, now: int): State {
    var r := s.nextId;
    var s1 := AddEntry(s, model, r, Entry("", [], l.launcherId, l.endpoint, Assembling, now));
    Send(s1.(nextId := r + 1), l.endpoint, Post(model, r))
  }

  // The pool's first entry, the one a cold start may replace.
  function Tracked(s: State, model: string): Option<Uid> {
    if Pool(s.pools, model) == [] then None else Some(Pool(s.pools, model)[0])
  }

  // The launcher a cold start would use now, if it is to assemble at all.
  function ColdChoice(w: World, s: State, model: string, v: View): Option<LauncherInfo>
    requires Refs(s)
  {
    var pool := Pool(s.pools, model);
    var tracked := Tracked(s, model);
    assert tracked.Some? ==> Live(s.pools, model, tracked.value);
    if model in s.coldStarts || RequiredNodeCount(w.catalog, model) <= 1 then None
    else if exists id :: id in pool && Live(s.pools, model, id) && s.entries[id].state == Assembling then None
    else if tracked.Some? && s.entries[tracked.value].state == Warm
        && s.entries[tracked.value].driverNodeId in v.active then None
    else if |pool| - (if tracked.Some? then 1 else 0) >= MaxPipelines(w.catalog, model) then None
    else
      match FirstFree(ListForModel(v.launchers, model), ClaimedLauncherIds(w, s, tracked))
      case None => None
      case Some(l) => if v.selection.Some? && w.driverOf(l) in v.trusted then Some(l) else None
  }

  // ensurePipelineReady / assemblePipeline up to its first await.
  function ColdBegin(w: World, s: State, model: string, v: View): State
    requires Refs(s)
  {
    match ColdChoice(w, s, model, v)
    case None => s
    case Some(l) =>
      var contributors := if v.selection.Some? then v.selection.value else [];
      var cold := ColdStart(s.nextId, l, Tracked(s, model), contributors, Posting);
      var s1 := Reserve(s, model, l, v.now);
      s1.(coldStarts := s1.coldStarts[model := cold])
  }

  // Swaps the reservation, and whatever it replaces, for the warm entry.
  function ColdFinish(w: World, s: State, model: string, now: int): State
    requires model in s.coldStarts
  {
    var c := s.coldStarts[model];
    var s1 := if c.tracked.Some? then RemoveEntry(s, model, c.tracked.value) else s;
    var s2 := RemoveEntry(s1, model, c.reservation);
    var warm := Entry(w.driverOf(c.launcher), c.contributors, c.launcher.launcherId, c.launcher.endpoint, Warm, now);
    AddEntry(s2, model, s.nextId, warm).(nextId := s.nextId + 1, coldStarts := s.coldStarts - {model})
  }

  // The POST of a cold start came back (or failed, or timed out).
  function ColdSettle(w: World, s: State, model: string, ok: bool, v: View): State
    requires Refs(s) && model in s.coldStarts
  {
    var c := s.coldStarts[model];
    if !ok then
      var s1 := RemoveEntry(s, model, c.reservation);
      var s2 := if c.tracked.Some? then MarkFailed(s1, model, c.tracked.value) else s1;
      s2.(coldStarts := s.coldStarts - {model})
    else if c.tracked.Some? && s.entries[c.tracked.value].launcherId != c.launcher.launcherId then
      StopLauncher(s, v.launchers, s.entries[c.tracked.value])
        .(coldStarts := s.coldStarts[model := c.(phase := Stopping)])
    else
      ColdFinish(w, s, model, v.now)
  }

  // /generate gave up on a driver: every entry of the model naming it is evicted from "warm".
  function ForwardFailed(s: State, model: string, driver: string): State
    requires Refs(s)
  {
    s.(entries := map id | id in s.entries ::
        if Live(s.pools, model, id) && s.entries[id].driverNodeId == driver then s.entries[id].(state := Failed)
        else s.entries[id])
  }

  // ---------------------------------------------------------------- the background tick

  datatype Verdict = Skip | Keep | Inactive | Broken | IdleTooLong

  // What the health check decides about one entry.
  function Judge(e: Entry, active: set<string>, now: int, idleGraceMs: int): Verdict {
    if e.state == Assembling then Skip
    else if e.driverNodeId !in active || exists n :: n in e.computeNodeIds && n !in active then Inactive
    else if e.state == Failed then Broken
    else if now - e.lastUsedAt > idleGraceMs then IdleTooLong
    else Keep
  }

  predicate Condemned(v: Verdict) {
    v == Inactive || v == Broken || v == IdleTooLong
  }

  // One move of healthCheckAndScaleDown: on to the next model, or on to the next entry of this one.
  function TickCheck(w: World, s: State, v: View): State
    requires Refs(s) && s.tick.Checking? && (s.tick.todo != [] || s.tick.models != [])
  {
    var t := s.tick;
    if t.todo == [] then
      s.(tick := Checking(t.models[1..], t.models[0], Pool(s.pools, t.models[0]), t.active, t.now))
    else
      var id, rest := t.todo[0], t.todo[1..];
      if Condemned(Judge(s.entries[id], t.active, t.now, w.idleGraceMs)) then
        StopLauncher(s, v.launchers, s.entries[id]).(tick := TearingDown(id, t.models, t.model, rest, t.active, t.now))
      else
        s.(tick := Checking(t.models, t.model, rest, t.active, t.now))
  }

  function TickTornDown(s: State): State
    requires s.tick.TearingDown?
  {
    var t := s.tick;
    RemoveEntry(s, t.model, t.victim).(tick := Checking(t.models, t.model, t.todo, t.active, t.now))
  }

  function Snapshots(w: World, s: State, models: seq<string>, demand: map<string, nat>,
      perPipeline: real): seq<PoolDemandSnapshot>
    requires perPipeline > 0.0
  {
    if models == [] then []
    else
      var m := models[0];
      var d := if m in demand then demand[m] else 0;
      [PoolDemandSnapshot(m, d, |Pool(s.pools, m)|,
                          DesiredPipelineCount(d, MaxPipelines(w.catalog, m), RequiredNodeCount(w.catalog, m),
                              perPipeline))]
      + Snapshots(w, s, models[1..], demand, perPipeline)
  }

  // The plan of the pure planner from the pools as they stand.
  ghost predicate IsPlan(w: World, s: State, v: View, demand: map<string, nat>, perPipeline: real,
      claims: seq<PipelineClaim>)
    requires perPipeline > 0.0 && Refs(s)
  {
    claims == PlanOf(Snapshots(w, s, MultiPipelineModelIds(w.catalog), demand, perPipeline), LaunchersFor(v.launchers),
                     ClaimedLauncherIds(w, s, None))
  }

  // tryAssemble up to its await: the launcher is re-checked at the moment of commitment.
  function TickCommit(w: World, s: State, v: View): State
    requires Refs(s) && s.tick.Allocating? && s.tick.claims != []
  {
    var t := s.tick;
    var c, rest := t.claims[0], t.claims[1..];
    if c.modelId in t.failed then
      s.(tick := Allocating(rest, t.failed))
    else if v.selection.None? || w.driverOf(c.launcher) !in v.trusted
            || IsLauncherClaimed(ClaimedLauncherIds(w, s, None), c.launcher) then
      s.(tick := Allocating(rest, t.failed + {c.modelId}))
    else
      Reserve(s, c.modelId, c.launcher, v.now).(tick := Awaiting(c, s.nextId, v.selection.value, rest, t.failed))
  }

  function TickSettle(w: World, s: State, ok: bool, now: int): State
    requires s.tick.Awaiting?
  {
    var t := s.tick;
    var m, l := t.claim.modelId, t.claim.launcher;
    var s1 := RemoveEntry(s, m, t.reservation);
    if ok then
      var warm := Entry(w.driverOf(l), t.contributors, l.launcherId, l.endpoint, Warm, now);
      AddEntry(s1, m, s.nextId, warm).(nextId := s.nextId + 1, tick := Allocating(t.claims, t.failed))
    else
      s1.(tick := Allocating(t.claims, t.failed + {m}))
  }

  // ---------------------------------------------------------------- steps and runs

  datatype Step =
    | BeginColdStart(model: string, v: View)
    | SettleColdStart(model: string, ok: bool, v: View)
    | OldLauncherStopped(model: string, v: View)
    | Use(id: Uid, now: int)
    | FailForward(model: string, driver: string)
    | BeginTick(v: View)
    | CheckNext(v: View)
    | TornDown
    | Plan(v: View, demand: map<string, nat>, perPipeline: real, claims: seq<PipelineClaim>)
    | Commit(v: View)
    | SettleClaim(ok: bool, now: int)
    | EndTick
    | LauncherHandles(endpoint: string, outcome: Outcome)
    | AgentExits(endpoint: string)
    | LauncherRestarts(endpoint: string)

  // A settle with `ok` needs the launcher's 200; without it, it may come at any time (an error, a timeout).
  ghost predicate Possible(w: World, s: State, step: Step) {
    && Refs(s)
    && match step
       case BeginColdStart(_, v) => Usable(v)
       case SettleColdStart(m, ok, _) =>
         m in s.coldStarts && s.coldStarts[m].phase == Posting && (ok ==> s.coldStarts[m].reservation in s.replies)
       case OldLauncherStopped(m, _) => m in s.coldStarts && s.coldStarts[m].phase == Stopping
       case Use(id, _) => id in s.entries
       case FailForward(_, driver) => driver != ""  // a node id is a digest, never empty
       case BeginTick(_) => s.tick.Idle?
       case CheckNext(_) => s.tick.Checking? && (s.tick.todo != [] || s.tick.models != [])
       case TornDown => s.tick.TearingDown?
       case Plan(v, demand, perPipeline, claims) =>
         && s.tick.Checking? && s.tick.todo == [] && s.tick.models == []
         && Usable(v) && perPipeline > 0.0 && IsPlan(w, s, v, demand, perPipeline, claims)
       case Commit(_) => s.tick.Allocating? && s.tick.claims != []
       case SettleClaim(ok, _) => s.tick.Awaiting? && (ok ==> s.tick.reservation in s.replies)
       case EndTick => s.tick.Allocating? && s.tick.claims == []
       case LauncherHandles(e, _) => MachineAt(s.machines, e).queue != []
       case AgentExits(_) => true
       case LauncherRestarts(_) => true
  }

  function Apply(w: World, s: State, step: Step): State
    requires Possible(w, s, step)
  {
    match step
    case BeginColdStart(m, v) => ColdBegin(w, s, m, v)
    case SettleColdStart(m, ok, v) => ColdSettle(w, s, m, ok, v)
    case OldLauncherStopped(m, v) => ColdFinish(w, s, m, v.now)
    case Use(id, now) => s.(entries := s.entries[id := s.entries[id].(lastUsedAt := now)])
    case FailForward(m, driver) => ForwardFailed(s, m, driver)
    case BeginTick(v) => s.(tick := Checking(MultiPipelineModelIds(w.catalog), "", [], v.active, v.now))
    case CheckNext(v) => TickCheck(w, s, v)
    case TornDown => TickTornDown(s)
    case Plan(_, _, _, claims) => s.(tick := Allocating(claims, {}))
    case Commit(v) => TickCommit(w, s, v)
    case SettleClaim(ok, now) => TickSettle(w, s, ok, now)
    case EndTick => s.(tick := Idle)
    case LauncherHandles(e, outcome) =>
      var mach := MachineAt(s.machines, e);
      var answered := if mach.queue[0].Post? && outcome == Started then {mach.queue[0].tag} else {};
      s.(machines := s.machines[e := Handle(mach, outcome)], replies := s.replies + answered)
    case AgentExits(e) => s.(machines := s.machines[e := MachineAt(s.machines, e).(agent := None)])
    case LauncherRestarts(e) => s.(machines := s.machines[e := Machine([], None)])
  }

  // One step of a run.
  ghost predicate Leads(w: World, s: State, step: Step, s': State) {
    Possible(w, s, step) && s' == Apply(w, s, step)
  }

  // A step of the background tick.
  predicate OfTick(step: Step) {
    step.BeginTick? || step.CheckNext? || step.TornDown? || step.Plan? || step.Commit? || step.SettleClaim?
        || step.EndTick?
  }

  // The tick stands where the program awaits something or no tick is under way.
  predicate TickWaits(t: Tick) { t.Idle? || t.TearingDown? || t.Awaiting? }

  // Everything else happens only while the tick waits.
  ghost predicate Atomic(run: seq<State>, labels: seq<Step>)
    requires |run| == |labels| + 1
  {
    forall i :: 0 <= i < |labels| && !OfTick(labels[i]) ==> TickWaits(run[i].tick)
  }

  // What the node registry and the selection can answer for a model: active nodes are trusted, and a selection names
  // one contributor less than the model needs nodes, distinct active nodes out of enough.
  ghost predicate Plausible(w: World, v: View, model: string) {
    && v.active <= v.trusted
    && (v.selection.Some? ==>
          && |v.active| >= RequiredNodeCount(w.catalog, model) == |v.selection.value| + 1
          && NoDup(v.selection.value) && forall n :: n in v.selection.value ==> n in v.active)
  }

  // Whenever a run assembles something, it is from such an answer.
  ghost predicate PlausibleRun(w: World, run: seq<State>, labels: seq<Step>)
    requires |run| == |labels| + 1
  {
    forall i :: 0 <= i < |labels| ==>
      match labels[i]
      case BeginColdStart(m, v) => Plausible(w, v, m)
      case Commit(v) => run[i].tick.Allocating? && run[i].tick.claims != []
          && Plausible(w, v, run[i].tick.claims[0].modelId)
      case _ => true
  }

  // A run from empty pools: states run[0..n] joined by steps labels[0..n-1].
  ghost predicate IsRun(w: World, run: seq<State>, labels: seq<Step>) {
    && |run| == |labels| + 1
    && run[0] == INITIAL
    && forall i :: 0 <= i < |labels| ==> Leads(w, run[i], labels[i], run[i + 1])
  }
}
