// Where a settled pool entry comes from, over whole runs: what it names, when it was last stamped and why it is
// failed follows from the steps of the run alone.
module PoolHistory {
  import opened Options
  import opened Launchers
  import opened Seqs
  import opened AllocationPlanner
  import opened PoolProtocol
  import opened PoolInvariant
  import opened PoolMachines
  import opened PoolSteps
  import opened PoolTheorems
  import opened PoolAgents

  // ---------------------------------------------------------------- assemblies in flight

  // The step reserves launcher `l` for the model, with these contributors: it serves the model or was planned for it,
  // and the driver it will spawn is trusted.
  ghost predicate Reserving(w: World, s: State, step: Step, m: string, l: LauncherInfo, cs: seq<string>, r: Uid) {
    && r == s.nextId && w.driverOf(l) in TrustedBy(step)
    && match step
       case BeginColdStart(model, v) =>
         model == m && v.selection == Some(cs) && l in v.launchers && m in l.servesModels
       case Commit(v) =>
         s.tick.Allocating? && s.tick.claims != [] && s.tick.claims[0] == PipelineClaim(m, l) && v.selection == Some(cs)
       case _ => false
  }

  function TrustedBy(step: Step): set<string> {
    match step
    case BeginColdStart(_, v) => v.trusted
    case Commit(v) => v.trusted
    case _ => {}
  }

  // An assembly in flight for a model: a cold start or the tick's claim.
  ghost predicate InFlight(s: State, m: string, l: LauncherInfo, cs: seq<string>, r: Uid) {
    || (m in s.coldStarts && s.coldStarts[m].reservation == r && s.coldStarts[m].launcher == l
        && s.coldStarts[m].contributors == cs)
    || (s.tick.Awaiting? && s.tick.claim == PipelineClaim(m, l) && s.tick.reservation == r && s.tick.contributors == cs)
  }

  lemma {:induction false} FlightBegan(w: World, s: State, step: Step, m: string, l: LauncherInfo, cs: seq<string>,
      r: Uid)
    requires Possible(w, s, step) && InFlight(Apply(w, s, step), m, l, cs, r)
    ensures InFlight(s, m, l, cs, r)
       || (Reserving(w, s, step, m, l, cs, r) && SendsPost(s, Apply(w, s, step), l.endpoint, m, r))
  {
    match step
    case BeginColdStart(model, v) => BeginFlight(w, s, model, v, m, l, cs, r);
    case Commit(v) => CommitFlight(w, s, v, m, l, cs, r);
    case SettleColdStart(model, ok, v) => SettleFlight(w, s, model, ok, v, m, l, cs, r);
    case _ => OtherFlight(w, s, step, m, l, cs, r);
  }

  lemma {:induction false} BeginFlight(w: World, s: State, model: string, v: View, m: string, l: LauncherInfo,
      cs: seq<string>, r: Uid)
    requires Refs(s) && InFlight(ColdBegin(w, s, model, v), m, l, cs, r)
    ensures InFlight(s, m, l, cs, r) || (Reserving(w, s, BeginColdStart(model, v), m, l, cs, r)
                                         && SendsPost(s, ColdBegin(w, s, model, v), l.endpoint, m, r))
  {
    hide ClaimedLauncherIds;
    var choice, tracked := ColdChoice(w, s, model, v), Tracked(s, model);
    if choice.Some? {
      FirstFreeIsFree(ListForModel(v.launchers, model), ClaimedLauncherIds(w, s, tracked));
      ListForModelIsListed(v.launchers, model);
      ReserveOnlySends(s, model, choice.value, v.now, choice.value.endpoint);
    }
  }

  lemma {:induction false} CommitFlight(w: World, s: State, v: View, m: string, l: LauncherInfo, cs: seq<string>,
      r: Uid)
    requires Refs(s) && s.tick.Allocating? && s.tick.claims != [] && InFlight(TickCommit(w, s, v), m, l, cs, r)
    ensures InFlight(s, m, l, cs, r) || (Reserving(w, s, Commit(v), m, l, cs, r)
                                         && SendsPost(s, TickCommit(w, s, v), l.endpoint, m, r))
  {
    hide ClaimedLauncherIds;
    var c := s.tick.claims[0];
    ReserveOnlySends(s, c.modelId, c.launcher, v.now, c.launcher.endpoint);
  }

  lemma {:induction false} SettleFlight(w: World, s: State, model: string, ok: bool, v: View, m: string,
      l: LauncherInfo, cs: seq<string>, r: Uid)
    requires Refs(s) && model in s.coldStarts && InFlight(ColdSettle(w, s, model, ok, v), m, l, cs, r)
    ensures InFlight(s, m, l, cs, r)
  {
    hide EndpointOf;
  }

  lemma {:induction false} OtherFlight(w: World, s: State, step: Step, m: string, l: LauncherInfo, cs: seq<string>,
      r: Uid)
    requires Possible(w, s, step) && InFlight(Apply(w, s, step), m, l, cs, r)
    requires !step.BeginColdStart? && !step.Commit? && !step.SettleColdStart?
    ensures InFlight(s, m, l, cs, r)
  {
    hide Judge, EndpointOf, IsPlan, Refs, Handle, ColdBegin, ColdSettle, TickCommit, MachineAt;
  }

  lemma {:induction false} FlightWasReserved(w: World, run: seq<State>, labels: seq<Step>, i: nat, m: string,
      l: LauncherInfo, cs: seq<string>, r: Uid)
    returns (c: nat)
    requires IsRun(w, run, labels) && i < |run| && InFlight(run[i], m, l, cs, r)
    ensures c < i && Reserving(w, run[c], labels[c], m, l, cs, r) && SendsPost(run[c], run[c + 1], l.endpoint, m, r)
    decreases i
  {
    hide Possible, Apply, Reserving, SendsPost;
    assert i > 0;
    assert Leads(w, run[i - 1], labels[i - 1], run[i]);
    FlightBegan(w, run[i - 1], labels[i - 1], m, l, cs, r);
    if InFlight(run[i - 1], m, l, cs, r) {
      c := FlightWasReserved(w, run, labels, i - 1, m, l, cs, r);
    } else {
      c := i - 1;
      assert run[c + 1] == run[i];
    }
  }

  // ---------------------------------------------------------------- settled entries

  ghost predicate SettledIn(s: State, m: string, id: Uid) {
    Live(s.pools, m, id) && Settled(s, id)
  }

  // Everything that an entry names.
  predicate SameSubject(e: Entry, e': Entry) {
    && e'.driverNodeId == e.driverNodeId && e'.computeNodeIds == e.computeNodeIds
    && e'.launcherId == e.launcherId && e'.launcherEndpoint == e.launcherEndpoint
  }

  // A forward to the entry's driver failed, or the cold start that was to replace the entry did.
  ghost predicate Fails(s: State, step: Step, m: string, id: Uid) {
    match step
    case FailForward(model, driver) => model == m && id in s.entries && s.entries[id].driverNodeId == driver
    case SettleColdStart(model, ok, _) =>
      !ok && model == m && m in s.coldStarts && s.coldStarts[m].tracked == Some(id)
    case _ => false
  }

  // The clock at a step that settles or uses an entry.
  function ClockOf(step: Step): int {
    match step
    case SettleColdStart(_, _, v) => v.now
    case OldLauncherStopped(_, v) => v.now
    case SettleClaim(_, now) => now
    case Use(_, now) => now
    case _ => 0
  }

  // A settled entry that was one before: it names what it named, only a use stamps it and only a failure fails it.
  ghost predicate Stays(s: State, step: Step, s': State, m: string, id: Uid) {
    && SettledIn(s, m, id) && id in s'.entries && SameSubject(s.entries[id], s'.entries[id])
    && s'.entries[id].lastUsedAt == (if step.Use? && step.id == id then step.now else s.entries[id].lastUsedAt)
    && (s'.entries[id].state == Failed <==> s.entries[id].state == Failed || Fails(s, step, m, id))
  }

  // A new entry that takes the place of an assembly in flight.
  ghost predicate Placed(w: World, s: State, step: Step, e: Entry, m: string, id: Uid, l: LauncherInfo,
      cs: seq<string>, r: Uid) {
    && Becomes(s, step, m, r, id) && InFlight(s, m, l, cs, r)
    && e.driverNodeId == w.driverOf(l) && e.computeNodeIds == cs
    && e.launcherId == l.launcherId && e.launcherEndpoint == l.endpoint
    && e.state == Warm && e.lastUsedAt == ClockOf(step)
  }

  ghost predicate Explained(w: World, s: State, step: Step, s': State, m: string, id: Uid)
    requires id in s'.entries
  {
    Stays(s, step, s', m, id) || exists l, cs, r :: Placed(w, s, step, s'.entries[id], m, id, l, cs, r)
  }

  lemma {:induction false} SettledOrigin(w: World, s: State, step: Step, m: string, id: Uid)
    requires Inv(w, s) && Possible(w, s, step) && SettledIn(Apply(w, s, step), m, id)
    ensures Explained(w, s, step, Apply(w, s, step), m, id)
  {
    hide FramesOk, Exclusive, HostsOk, QueueOk, ColdBegin, ColdSettle, ColdFinish, TickCommit, TickSettle, TickTornDown,
      TickCheck, ForwardFailed, Handle, IsPlan, Refs, Explained;
    match step
    case BeginColdStart(model, v) => BeginExplained(w, s, model, v, m, id);
    case SettleColdStart(model, ok, v) => SettleExplained(w, s, model, ok, v, m, id);
    case OldLauncherStopped(model, v) => FinishExplained(w, s, step, model, v.now, m, id);
    case Commit(v) => CommitExplained(w, s, v, m, id);
    case SettleClaim(ok, now) => ClaimExplained(w, s, ok, now, m, id);
    case TornDown => TornDownExplained(w, s, m, id);
    case FailForward(model, driver) => ForwardExplained(w, s, model, driver, m, id);
    case _ => OtherExplained(w, s, step, m, id);
  }

  lemma {:induction false} BeginExplained(w: World, s: State, model: string, v: View, m: string, id: Uid)
    requires PoolsOk(w, s) && SettledIn(ColdBegin(w, s, model, v), m, id)
    ensures Explained(w, s, BeginColdStart(model, v), ColdBegin(w, s, model, v), m, id)
  {
    hide ColdChoice;
    assert s.nextId !in s.entries;
    assert Live(s.pools, m, id);
  }

  lemma {:induction false} CommitExplained(w: World, s: State, v: View, m: string, id: Uid)
    requires PoolsOk(w, s) && s.tick.Allocating? && s.tick.claims != [] && SettledIn(TickCommit(w, s, v), m, id)
    ensures Explained(w, s, Commit(v), TickCommit(w, s, v), m, id)
  {
    hide ClaimedLauncherIds;
    assert s.nextId !in s.entries;
    assert Live(s.pools, m, id);
  }

  lemma {:induction false} SettleExplained(w: World, s: State, model: string, ok: bool, v: View, m: string, id: Uid)
    requires Inv(w, s) && Possible(w, s, SettleColdStart(model, ok, v))
    requires SettledIn(ColdSettle(w, s, model, ok, v), m, id)
    ensures Explained(w, s, SettleColdStart(model, ok, v), ColdSettle(w, s, model, ok, v), m, id)
  {
    hide Exclusive, HostsOk, QueueOk, Explained, ColdFinish, StopLauncher;
    var c := s.coldStarts[model];
    if !ok {
      FailExplained(w, s, model, v, m, id);
    } else if c.tracked.Some? && s.entries[c.tracked.value].launcherId != c.launcher.launcherId {
      StopExplained(w, s, model, v, m, id);
    } else {
      FinishExplained(w, s, SettleColdStart(model, ok, v), model, v.now, m, id);
    }
  }

  lemma {:induction false} FailExplained(w: World, s: State, model: string, v: View, m: string, id: Uid)
    requires PoolsOk(w, s) && FramesOk(w, s) && model in s.coldStarts
    requires SettledIn(ColdSettle(w, s, model, false, v), m, id)
    ensures Explained(w, s, SettleColdStart(model, false, v), ColdSettle(w, s, model, false, v), m, id)
  {
    var c := s.coldStarts[model];
    assert ColdOk(s, model);
    Removed(s, model, c.reservation);
    assert Live(s.pools, m, id) && Live(RemoveEntry(s, model, c.reservation).pools, m, id);
    assert c.tracked == Some(id) ==> Settled(s, id);
  }

  lemma {:induction false} StopExplained(w: World, s: State, model: string, v: View, m: string, id: Uid)
    requires Refs(s) && model in s.coldStarts
    requires var c := s.coldStarts[model];
             c.tracked.Some? && s.entries[c.tracked.value].launcherId != c.launcher.launcherId
    requires SettledIn(ColdSettle(w, s, model, true, v), m, id)
    ensures Explained(w, s, SettleColdStart(model, true, v), ColdSettle(w, s, model, true, v), m, id)
  {
    hide EndpointOf;
    assert Live(s.pools, m, id);
  }

  lemma {:induction false} FinishPools(w: World, s: State, model: string, now: int)
    requires PoolsOk(w, s) && model in s.coldStarts
    ensures var c, s' := s.coldStarts[model], ColdFinish(w, s, model, now);
            && s'.entries == s.entries[s.nextId := Entry(w.driverOf(c.launcher), c.contributors,
                                                        c.launcher.launcherId, c.launcher.endpoint, Warm, now)]
            && forall m, id :: Live(s'.pools, m, id) ==> Live(s.pools, m, id) || (m == model && id == s.nextId)
  {
    ClearedPools(s, model);
    var s3 := Cleared(s, model);
    assert ColdFinish(w, s, model, now).pools == s3.pools[model := Pool(s3.pools, model) + [s.nextId]];
    hide NoDup, ColdFinish, Cleared;
    forall m, id | Live(ColdFinish(w, s, model, now).pools, m, id)
      ensures Live(s.pools, m, id) || (m == model && id == s.nextId)
    {
      assert Live(s3.pools, m, id) || (m == model && id == s.nextId);
    }
  }

  lemma {:induction false} FinishExplained(w: World, s: State, step: Step, model: string, now: int, m: string, id: Uid)
    requires PoolsOk(w, s) && model in s.coldStarts && SettledIn(ColdFinish(w, s, model, now), m, id)
    requires match step
             case SettleColdStart(model', ok, v) => ok && model' == model && v.now == now
             case OldLauncherStopped(model', v) => model' == model && v.now == now
             case _ => false
    ensures Explained(w, s, step, ColdFinish(w, s, model, now), m, id)
  {
    FinishPools(w, s, model, now);
    hide NoDup, ColdFinish;
    var c := s.coldStarts[model];
    assert s.nextId !in s.entries;
    if id == s.nextId {
      assert !Live(s.pools, m, id);
      assert Placed(w, s, step, ColdFinish(w, s, model, now).entries[id], m, id, c.launcher, c.contributors,
          c.reservation);
    } else {
      assert Stays(s, step, ColdFinish(w, s, model, now), m, id);
    }
  }

  lemma {:induction false} ClaimEntries(w: World, s: State, ok: bool, now: int)
    requires s.tick.Awaiting?
    ensures var t := s.tick;
            TickSettle(w, s, ok, now).entries == if !ok then s.entries else s.entries[s.nextId :=
                Entry(w.driverOf(t.claim.launcher), t.contributors, t.claim.launcher.launcherId,
                      t.claim.launcher.endpoint, Warm, now)]
  {
  }

  lemma {:induction false} ClaimExplained(w: World, s: State, ok: bool, now: int, m: string, id: Uid)
    requires PoolsOk(w, s) && s.tick.Awaiting? && SettledIn(TickSettle(w, s, ok, now), m, id)
    ensures Explained(w, s, SettleClaim(ok, now), TickSettle(w, s, ok, now), m, id)
  {
    var t := s.tick;
    ClaimPools(w, s, ok, now);
    ClaimEntries(w, s, ok, now);
    hide NoDup, TickSettle;
    assert s.nextId !in s.entries && PipelineClaim(t.claim.modelId, t.claim.launcher) == t.claim;
    if id == s.nextId {
      assert !Live(s.pools, m, id);
      assert Placed(w, s, SettleClaim(ok, now), TickSettle(w, s, ok, now).entries[id], m, id, t.claim.launcher,
          t.contributors, t.reservation);
    } else {
      assert Stays(s, SettleClaim(ok, now), TickSettle(w, s, ok, now), m, id);
    }
  }

  lemma {:induction false} TornDownExplained(w: World, s: State, m: string, id: Uid)
    requires PoolsOk(w, s) && s.tick.TearingDown? && SettledIn(TickTornDown(s), m, id)
    ensures Explained(w, s, TornDown, TickTornDown(s), m, id)
  {
    Removed(s, s.tick.model, s.tick.victim);
    assert Live(s.pools, m, id);
  }

  lemma {:induction false} ForwardExplained(w: World, s: State, model: string, driver: string, m: string, id: Uid)
    requires PoolsOk(w, s) && driver != "" && SettledIn(ForwardFailed(s, model, driver), m, id)
    ensures Explained(w, s, FailForward(model, driver), ForwardFailed(s, model, driver), m, id)
  {
    assert Live(s.pools, m, id);
  }

  lemma {:induction false} OtherExplained(w: World, s: State, step: Step, m: string, id: Uid)
    requires PoolsOk(w, s) && Possible(w, s, step) && SettledIn(Apply(w, s, step), m, id)
    requires step.Use? || step.BeginTick? || step.CheckNext? || step.Plan? || step.EndTick?
             || step.LauncherHandles? || step.AgentExits? || step.LauncherRestarts?
    ensures Explained(w, s, step, Apply(w, s, step), m, id)
  {
    hide Judge, StopLauncher, IsPlan, Refs, Handle;
    if step.CheckNext? {
      CheckLeaves(w, s, step.v);
    }
    hide TickCheck;
    assert Live(s.pools, m, id);
  }

  // ---------------------------------------------------------------- whole runs

  // Every settled entry took the place of a reservation of its model: a step of the request path or of the tick
  // reserved launcher l with contributors cs for it and sent the POST, and when that was answered the entry was made
  // for l, its driver and cs. It was last stamped when it was made or last used, and it is failed if and only if since
  // then a forward to its driver failed, or a cold start that was to replace it.
  lemma {:induction false} EntryIsAsReserved(w: World, run: seq<State>, labels: seq<Step>, i: nat, m: string, id: Uid)
    returns (c: nat, b: nat, u: nat, l: LauncherInfo, cs: seq<string>, r: Uid)
    requires IsRun(w, run, labels) && i < |run|
    requires id in Pool(run[i].pools, m) && id in run[i].entries && run[i].entries[id].state != Assembling
    ensures c < b <= u < i
    ensures Reserving(w, run[c], labels[c], m, l, cs, r) && SendsPost(run[c], run[c + 1], l.endpoint, m, r)
    ensures Becomes(run[b], labels[b], m, r, id)
    ensures var e := run[i].entries[id];
            && e.driverNodeId == w.driverOf(l) && e.computeNodeIds == cs
            && e.launcherId == l.launcherId && e.launcherEndpoint == l.endpoint
            && e.lastUsedAt == ClockOf(labels[u])
            && (e.state == Failed <==> exists f :: b < f < i && Fails(run[f], labels[f], m, id))
    ensures u == b || (labels[u].Use? && labels[u].id == id)
    ensures forall k :: u < k < i ==> !(labels[k].Use? && labels[k].id == id)
    decreases i
  {
    hide Possible, Apply, Inv, Becomes, Reserving, SendsPost, Fails, InFlight;
    assert i > 0;
    var s, step := run[i - 1], labels[i - 1];
    assert Leads(w, s, step, run[i]);
    EveryStateKeepsInv(w, run, labels, i - 1);
    assert SettledIn(run[i], m, id);
    SettledOrigin(w, s, step, m, id);
    if Stays(s, step, run[i], m, id) {
      c, b, u, l, cs, r := EntryIsAsReserved(w, run, labels, i - 1, m, id);
      if step.Use? && step.id == id {
        u := i - 1;
      }
      if Fails(s, step, m, id) {
        assert b < i - 1 < i && Fails(run[i - 1], labels[i - 1], m, id);
      }
    } else {
      l, cs, r :| Placed(w, s, step, run[i].entries[id], m, id, l, cs, r);
      c := FlightWasReserved(w, run, labels, i - 1, m, l, cs, r);
      b, u := i - 1, i - 1;
    }
  }
}
