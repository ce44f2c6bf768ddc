// What the health check of the background tick does to the pools, over whole runs: which entries it tears down, which
// it keeps, and that it reaches every one.
module PoolHealth {
  import opened Options
  import opened Seqs
  import opened Catalog
  import opened Launchers
  import opened PoolProtocol
  import opened PoolInvariant
  import opened PoolMachines
  import opened PoolSteps
  import opened PoolTheorems
  import opened PoolAgents
  import opened PoolHistory

  // ---------------------------------------------------------------- one check

  // The driver or a contributor is missing from the tick's snapshot, the entry is failed, or it was idle for too long.
  predicate Unwell(e: Entry, active: set<string>, now: int, idleGraceMs: int) {
    && e.state != Assembling
    && (NodeMissing(e, active) || e.state == Failed || now - e.lastUsedAt > idleGraceMs)
  }

  predicate NodeMissing(e: Entry, active: set<string>) {
    e.driverNodeId !in active || exists n :: n in e.computeNodeIds && n !in active
  }

  lemma {:induction false} CheckCondemnsIff(w: World, s: State, v: View)
    requires Possible(w, s, CheckNext(v)) && s.tick.todo != []
    ensures var t, s' := s.tick, Apply(w, s, CheckNext(v));
            && s'.pools == s.pools && s'.entries == s.entries
            && s'.tick == if Unwell(s.entries[t.todo[0]], t.active, t.now, w.idleGraceMs)
                 then TearingDown(t.todo[0], t.models, t.model, t.todo[1..], t.active, t.now)
                 else Checking(t.models, t.model, t.todo[1..], t.active, t.now)
  {
    hide EndpointOf;
  }

  // ---------------------------------------------------------------- who is told to stop

  predicate IsFirst(launchers: seq<LauncherInfo>, launcherId: string, k: int) {
    0 <= k < |launchers| && launchers[k].launcherId == launcherId
    && forall j :: 0 <= j < k ==> launchers[j].launcherId != launcherId
  }

  // Where a stop for the entry goes: to the first registered launcher of its id, or to the recorded endpoint if there
  // is none.
  ghost predicate Resolves(launchers: seq<LauncherInfo>, e: Entry, endpoint: string) {
    || (exists k :: IsFirst(launchers, e.launcherId, k) && launchers[k].endpoint == endpoint)
    || (endpoint == e.launcherEndpoint && forall k :: !IsFirst(launchers, e.launcherId, k))
  }

  lemma {:induction false} EndpointOfFirst(launchers: seq<LauncherInfo>, launcherId: string)
    ensures match EndpointOf(launchers, launcherId)
            case Some(x) => exists k :: IsFirst(launchers, launcherId, k) && launchers[k].endpoint == x
            case None => forall k :: !IsFirst(launchers, launcherId, k)
  {
    if launchers != [] {
      if launchers[0].launcherId == launcherId {
        assert IsFirst(launchers, launcherId, 0);
      } else {
        EndpointOfFirst(launchers[1..], launcherId);
        forall k ensures IsFirst(launchers, launcherId, k) <==> IsFirst(launchers[1..], launcherId, k - 1) {
          FirstOfRest(launchers, launcherId, k);
        }
        if k :| IsFirst(launchers[1..], launcherId, k)
                && EndpointOf(launchers, launcherId) == Some(launchers[1..][k].endpoint) {
          assert IsFirst(launchers, launcherId, k + 1);
        }
      }
    }
  }

  lemma {:induction false} FirstOfRest(launchers: seq<LauncherInfo>, launcherId: string, k: int)
    requires launchers != [] && launchers[0].launcherId != launcherId
    ensures IsFirst(launchers, launcherId, k) <==> IsFirst(launchers[1..], launcherId, k - 1)
  {
    var rest := launchers[1..];
    if IsFirst(rest, launcherId, k - 1) {
      assert forall j :: 0 < j < k ==> launchers[j] == rest[j - 1];
    }
    if IsFirst(launchers, launcherId, k) {
      assert forall j :: 0 <= j < k - 1 ==> rest[j] == launchers[j + 1];
    }
  }

  lemma {:induction false} StopTargetResolves(launchers: seq<LauncherInfo>, e: Entry, endpoint: string)
    ensures Resolves(launchers, e, endpoint) <==> endpoint == StopTarget(launchers, e)
  {
    EndpointOfFirst(launchers, e.launcherId);
    if k :| IsFirst(launchers, e.launcherId, k) {
      assert forall j :: IsFirst(launchers, e.launcherId, j) ==> j == k;
    }
  }

  // The entry that a step of the coordinator gives up while its agent may be running: one that the health check
  // condemns, or one that a cold start on another launcher replaces.
  ghost predicate GivesUp(w: World, s: State, step: Step, e: Entry) {
    match step
    case CheckNext(_) =>
      && s.tick.Checking? && s.tick.todo != [] && s.tick.todo[0] in s.entries && e == s.entries[s.tick.todo[0]]
      && Unwell(e, s.tick.active, s.tick.now, w.idleGraceMs)
    case SettleColdStart(m, ok, _) =>
      && ok && m in s.coldStarts && s.coldStarts[m].tracked.Some? && s.coldStarts[m].tracked.value in s.entries
      && e == s.entries[s.coldStarts[m].tracked.value] && e.launcherId != s.coldStarts[m].launcher.launcherId
    case _ => false
  }

  function LaunchersSeen(step: Step): seq<LauncherInfo> {
    match step
    case CheckNext(v) => v.launchers
    case SettleColdStart(_, _, v) => v.launchers
    case _ => []
  }

  // The coordinator sends a DELETE to an endpoint if and only if it gives up an entry whose stop resolves to it.
  lemma {:induction false} DeleteIsSentIff(w: World, s: State, step: Step, endpoint: string)
    requires Possible(w, s, step) && !OfLauncher(step) && endpoint != ""
    ensures QueueAt(Apply(w, s, step), endpoint) == QueueAt(s, endpoint) + [Delete]
       <==> exists e :: GivesUp(w, s, step, e) && Resolves(LaunchersSeen(step), e, endpoint)
  {
    var s' := Apply(w, s, step);
    assert QueueAt(s, endpoint) != QueueAt(s, endpoint) + [Delete];
    match step
    case CheckNext(v) =>
      if s.tick.todo != [] {
        CheckStops(w, s, v, endpoint);
      }
    case SettleColdStart(m, ok, v) => SettleStops(w, s, m, ok, v, endpoint);
    case _ =>
      OthersSendNoDelete(w, s, step, endpoint);
  }

  lemma {:induction false} OthersSendNoDelete(w: World, s: State, step: Step, endpoint: string)
    requires Possible(w, s, step) && !OfLauncher(step) && !step.CheckNext? && !step.SettleColdStart?
    ensures QueueAt(Apply(w, s, step), endpoint) != QueueAt(s, endpoint) + [Delete]
  {
    hide Possible, Apply, SendsPost;
    CoordinatorOnlySends(w, s, step, endpoint);
    if model :| SendsPost(s, Apply(w, s, step), endpoint, model, s.nextId) {
      PostIsNoDelete(s, Apply(w, s, step), endpoint, model);
    }
  }

  lemma {:induction false} PostIsNoDelete(s: State, s': State, endpoint: string, model: string)
    requires SendsPost(s, s', endpoint, model, s.nextId)
    ensures QueueAt(s', endpoint) != QueueAt(s, endpoint) + [Delete]
  {
    var n := |QueueAt(s, endpoint)|;
    assert QueueAt(s', endpoint)[n] == Post(model, s.nextId) && (QueueAt(s, endpoint) + [Delete])[n] == Delete;
  }

  lemma {:induction false} CheckStops(w: World, s: State, v: View, endpoint: string)
    requires Possible(w, s, CheckNext(v)) && s.tick.todo != [] && endpoint != ""
    ensures QueueAt(TickCheck(w, s, v), endpoint) == QueueAt(s, endpoint) + [Delete]
       <==> exists e :: GivesUp(w, s, CheckNext(v), e) && Resolves(v.launchers, e, endpoint)
  {
    var e := s.entries[s.tick.todo[0]];
    assert Condemned(Judge(e, s.tick.active, s.tick.now, w.idleGraceMs))
       <==> Unwell(e, s.tick.active, s.tick.now, w.idleGraceMs);
    hide Condemned, Judge, Unwell;
    StopTargetResolves(v.launchers, e, endpoint);
    StopOnlySends(s, v.launchers, e, endpoint);
    hide StopLauncher, StopTarget, Resolves;
    assert QueueAt(s, endpoint) != QueueAt(s, endpoint) + [Delete];
    if Unwell(e, s.tick.active, s.tick.now, w.idleGraceMs) {
      assert GivesUp(w, s, CheckNext(v), e);
    }
  }

  lemma {:induction false} SettleStops(w: World, s: State, m: string, ok: bool, v: View, endpoint: string)
    requires Possible(w, s, SettleColdStart(m, ok, v)) && endpoint != ""
    ensures QueueAt(ColdSettle(w, s, m, ok, v), endpoint) == QueueAt(s, endpoint) + [Delete]
       <==> exists e :: GivesUp(w, s, SettleColdStart(m, ok, v), e) && Resolves(v.launchers, e, endpoint)
  {
    var c := s.coldStarts[m];
    assert QueueAt(s, endpoint) != QueueAt(s, endpoint) + [Delete];
    if c.tracked.Some? {
      var e := s.entries[c.tracked.value];
      StopTargetResolves(v.launchers, e, endpoint);
      StopOnlySends(s, v.launchers, e, endpoint);
      hide StopLauncher, StopTarget, Resolves;
      if ok && e.launcherId != c.launcher.launcherId {
        assert GivesUp(w, s, SettleColdStart(m, ok, v), e);
      }
    }
  }

  // ---------------------------------------------------------------- how entries live on

  lemma {:induction false} SettledStaysSettled(w: World, s: State, step: Step, id: Uid)
    requires PoolsOk(w, s) && Possible(w, s, step) && Settled(s, id)
    ensures Settled(Apply(w, s, step), id)
  {
    hide NoDup, Judge, StopLauncher, IsPlan, Refs, Handle, ClaimedLauncherIds, ColdChoice, TickCheck;
    assert id < s.nextId;
    if step.CheckNext? {
      CheckLeaves(w, s, step.v);
    } else if step.SettleColdStart? {
      SettleLeaves(w, s, step.model, step.ok, step.v, id);
    }
    hide ColdSettle;
  }

  lemma {:induction false} SettleLeaves(w: World, s: State, m: string, ok: bool, v: View, id: Uid)
    requires PoolsOk(w, s) && m in s.coldStarts && Settled(s, id)
    ensures Settled(ColdSettle(w, s, m, ok, v), id)
  {
    hide NoDup, EndpointOf;
    assert id < s.nextId;
  }

  // A settled entry that is still pooled after a step was pooled before, and stays what it is but for stamps and
  // failures; one that left its pool never comes back.
  lemma {:induction false} SettledGoesOn(w: World, s: State, step: Step, m: string, id: Uid)
    requires Inv(w, s) && Possible(w, s, step) && Settled(s, id)
    ensures Settled(Apply(w, s, step), id)
    ensures Live(Apply(w, s, step).pools, m, id) ==> Stays(s, step, Apply(w, s, step), m, id)
  {
    hide FramesOk, Exclusive, HostsOk, QueueOk, Possible, Apply, Fails, Stays, InFlight;
    SettledStaysSettled(w, s, step, id);
    var s' := Apply(w, s, step);
    if Live(s'.pools, m, id) {
      SettledOrigin(w, s, step, m, id);
    }
  }

  // The cold start that was to replace the entry finishes.
  ghost predicate Replaced(s: State, step: Step, m: string, id: Uid) {
    && m in s.coldStarts && s.coldStarts[m].tracked == Some(id)
    && match step
       case SettleColdStart(model, ok, _) => model == m && ok
       case OldLauncherStopped(model, _) => model == m
       case _ => false
  }

  // A settled entry leaves its pool by a teardown or a replacement only.
  lemma {:induction false} LeavesBy(w: World, s: State, step: Step, m: string, id: Uid)
    requires Inv(w, s) && Possible(w, s, step) && SettledIn(s, m, id)
    requires !Live(Apply(w, s, step).pools, m, id)
    ensures Replaced(s, step, m, id) || (step.TornDown? && s.tick.victim == id && s.tick.model == m)
  {
    hide Exclusive, HostsOk, QueueOk, IsPlan, Refs, Handle, ClaimedLauncherIds, ColdChoice, TickCheck, StopLauncher,
      ColdFinish, NoDup;
    match step
    case SettleColdStart(model, ok, v) => SettleRemoves(w, s, model, ok, v, m, id);
    case OldLauncherStopped(model, v) => FinishRemoves(w, s, model, v.now, m, id);
    case CheckNext(v) => CheckLeaves(w, s, v);
    case TornDown => TornDownRemoves(w, s, m, id);
    case SettleClaim(ok, now) => ClaimRemoves(w, s, ok, now, m, id);
    case _ =>
  }

  lemma {:induction false} SettleRemoves(w: World, s: State, model: string, ok: bool, v: View, m: string, id: Uid)
    requires PoolsOk(w, s) && FramesOk(w, s) && model in s.coldStarts && SettledIn(s, m, id)
    requires !Live(ColdSettle(w, s, model, ok, v).pools, m, id)
    ensures Replaced(s, SettleColdStart(model, ok, v), m, id)
  {
    hide EndpointOf, ColdFinish;
    assert ColdOk(s, model);
    if !ok {
      Removed(s, model, s.coldStarts[model].reservation);
    } else {
      FinishRemoves(w, s, model, v.now, m, id);
    }
  }

  lemma {:induction false} FinishRemoves(w: World, s: State, model: string, now: int, m: string, id: Uid)
    requires PoolsOk(w, s) && FramesOk(w, s) && model in s.coldStarts && SettledIn(s, m, id)
    ensures Live(ColdFinish(w, s, model, now).pools, m, id) || (m == model && s.coldStarts[model].tracked == Some(id))
  {
    assert ColdOk(s, model);
    ClearedPools(s, model);
    hide NoDup;
    var s3 := Cleared(s, model);
    assert ColdFinish(w, s, model, now).pools == s3.pools[model := Pool(s3.pools, model) + [s.nextId]];
  }

  lemma {:induction false} TornDownRemoves(w: World, s: State, m: string, id: Uid)
    requires PoolsOk(w, s) && s.tick.TearingDown?
    ensures Live(TickTornDown(s).pools, m, id) <==> Live(s.pools, m, id) && !(m == s.tick.model && id == s.tick.victim)
  {
    Removed(s, s.tick.model, s.tick.victim);
  }

  lemma {:induction false} ClaimRemoves(w: World, s: State, ok: bool, now: int, m: string, id: Uid)
    requires PoolsOk(w, s) && FramesOk(w, s) && s.tick.Awaiting? && SettledIn(s, m, id)
    ensures Live(TickSettle(w, s, ok, now).pools, m, id)
  {
    Removed(s, s.tick.claim.modelId, s.tick.reservation);
  }

  // ---------------------------------------------------------------- one tick

  // The tick is at its health check, with this snapshot.
  ghost predicate Checks(t: Tick, active: set<string>, now: int) {
    (t.Checking? || t.TearingDown?) && t.active == active && t.now == now
  }

  lemma {:induction false} TickUntouched(w: World, s: State, step: Step)
    requires Possible(w, s, step) && !OfTick(step)
    ensures Apply(w, s, step).tick == s.tick
  {
    hide TickCheck, TickCommit, TickSettle, TickTornDown, IsPlan, Refs, Handle, ColdChoice, ClaimedLauncherIds,
      EndpointOf;
  }

  lemma {:induction false} TickMoves(w: World, s: State, step: Step, active: set<string>, now: int)
    requires Possible(w, s, step) && OfTick(step) && Checks(Apply(w, s, step).tick, active, now)
    ensures (step.BeginTick? && active == step.v.active && now == step.v.now && Apply(w, s, step).tick.Checking?)
         || ((step.CheckNext? || step.TornDown?) && Checks(s.tick, active, now))
  {
    hide ColdBegin, ColdSettle, ColdFinish, ForwardFailed, IsPlan, Handle, ClaimedLauncherIds, Judge, EndpointOf, Refs;
  }

  lemma {:induction false} ChecksBegan(w: World, s: State, step: Step, active: set<string>, now: int)
    requires Possible(w, s, step) && Checks(Apply(w, s, step).tick, active, now)
    ensures (step.BeginTick? && active == step.v.active && now == step.v.now && Apply(w, s, step).tick.Checking?)
         || (Checks(s.tick, active, now) && !step.BeginTick? && !step.Plan?)
  {
    hide Possible, Apply;
    if OfTick(step) {
      TickMoves(w, s, step, active, now);
    } else {
      TickUntouched(w, s, step);
    }
  }

  // A teardown goes back to a check of this tick that found the entry unwell in the tick's snapshot.
  ghost predicate FoundUnwell(w: World, run: seq<State>, labels: seq<Step>, b: int, j: int, id: Uid)
    requires |run| == |labels| + 1
  {
    && 0 <= b < j < |labels| && labels[b].BeginTick? && labels[j].CheckNext?
    && run[j].tick.Checking? && run[j].tick.todo != [] && run[j].tick.todo[0] == id && id in run[j].entries
    && Unwell(run[j].entries[id], labels[b].v.active, labels[b].v.now, w.idleGraceMs)
  }

  lemma {:induction false} TickBegan(w: World, run: seq<State>, labels: seq<Step>, i: nat) returns (b: nat)
    requires IsRun(w, run, labels) && i < |run| && (run[i].tick.Checking? || run[i].tick.TearingDown?)
    ensures b < i && labels[b].BeginTick? && Checks(run[i].tick, labels[b].v.active, labels[b].v.now)
    ensures forall k :: b < k < i ==> !labels[k].BeginTick? && !labels[k].Plan?
    decreases i
  {
    hide Possible, Apply;
    assert i > 0;
    assert Leads(w, run[i - 1], labels[i - 1], run[i]);
    ChecksBegan(w, run[i - 1], labels[i - 1], run[i].tick.active, run[i].tick.now);
    if labels[i - 1].BeginTick? {
      b := i - 1;
    } else {
      b := TickBegan(w, run, labels, i - 1);
    }
  }

  lemma {:induction false} TearingDownBegan(w: World, s: State, step: Step)
    requires Possible(w, s, step) && Apply(w, s, step).tick.TearingDown?
    ensures (Apply(w, s, step).tick == s.tick && !step.CheckNext?)
         || (step.CheckNext? && s.tick.Checking? && s.tick.todo != [] && s.tick.todo[0] in s.entries
             && s.tick.todo[0] == Apply(w, s, step).tick.victim
             && Unwell(s.entries[s.tick.todo[0]], s.tick.active, s.tick.now, w.idleGraceMs))
  {
    if !OfTick(step) {
      hide Apply, Possible;
      TickUntouched(w, s, step);
    } else {
      TickTearsDown(w, s, step);
    }
  }

  lemma {:induction false} TickTearsDown(w: World, s: State, step: Step)
    requires Possible(w, s, step) && OfTick(step) && Apply(w, s, step).tick.TearingDown?
    ensures step.CheckNext? && s.tick.todo != [] && s.tick.todo[0] == Apply(w, s, step).tick.victim
    ensures Unwell(s.entries[s.tick.todo[0]], s.tick.active, s.tick.now, w.idleGraceMs)
  {
    hide ColdBegin, ColdSettle, ColdFinish, ForwardFailed, IsPlan, Handle, ClaimedLauncherIds, EndpointOf;
  }

  lemma {:induction false} VictimWasUnwell(w: World, run: seq<State>, labels: seq<Step>, i: nat)
    returns (b: nat, j: nat)
    requires IsRun(w, run, labels) && i < |run| && run[i].tick.TearingDown?
    ensures j < i && FoundUnwell(w, run, labels, b, j, run[i].tick.victim)
    ensures forall k :: j < k <= i ==> run[k].tick == run[i].tick
    ensures forall k :: b < k < i ==> !labels[k].BeginTick? && !labels[k].Plan?
    decreases i
  {
    hide Possible, Apply, Unwell;
    assert i > 0;
    assert Leads(w, run[i - 1], labels[i - 1], run[i]);
    TearingDownBegan(w, run[i - 1], labels[i - 1]);
    ChecksBegan(w, run[i - 1], labels[i - 1], run[i].tick.active, run[i].tick.now);
    if !labels[i - 1].CheckNext? {
      b, j := VictimWasUnwell(w, run, labels, i - 1);
    } else {
      j := i - 1;
      b := TickBegan(w, run, labels, i - 1);
    }
  }

  // ---------------------------------------------------------------- what is kept

  // A check has condemned the entry, and the tick waits for its launcher to stop.
  ghost predicate GivingUp(s: State, id: Uid) {
    s.tick.TearingDown? && s.tick.victim == id
  }

  // A settled entry leaves its pool only when a cold start replaces it, or when a check found it unwell and the stop it
  // caused is over.
  lemma {:induction false} SettledEntryLeaves(w: World, run: seq<State>, labels: seq<Step>, i: nat, m: string, id: Uid)
    requires IsRun(w, run, labels) && i < |labels|
    requires SettledIn(run[i], m, id) && !Live(run[i + 1].pools, m, id)
    ensures Replaced(run[i], labels[i], m, id)
         || (labels[i].TornDown? && exists b, j :: j < i && FoundUnwell(w, run, labels, b, j, id)
                                                   && forall k :: j < k <= i ==> GivingUp(run[k], id))
  {
    hide Possible, Apply, Inv, Replaced, FoundUnwell;
    EveryStateKeepsInv(w, run, labels, i);
    assert Leads(w, run[i], labels[i], run[i + 1]);
    LeavesBy(w, run[i], labels[i], m, id);
    if !Replaced(run[i], labels[i], m, id) {
      TornDownNeedsVictim(w, run[i], run[i + 1]);
      var b, j := VictimWasUnwell(w, run, labels, i);
    }
  }

  lemma {:induction false} TornDownNeedsVictim(w: World, s: State, s': State)
    requires Leads(w, s, TornDown, s')
    ensures s.tick.TearingDown?
  {
  }

  // The stamp is at most the grace period older than the start of every tick so far.
  ghost predicate Recent(w: World, labels: seq<Step>, i: nat, stamp: int)
    requires i <= |labels|
  {
    forall b :: 0 <= b < i && labels[b].BeginTick? ==> labels[b].v.now - stamp <= w.idleGraceMs
  }

  // What a caller can see: the entry is not being torn down at step a, every tick's snapshot shows its nodes, no
  // forward to its driver and no cold start for it fails, none replaces it, and it was never stamped longer ago than
  // the grace period. A use does not save an entry that is being torn down already.
  ghost predicate Healthy(w: World, run: seq<State>, labels: seq<Step>, a: nat, i: nat, m: string, id: Uid)
    requires |run| == |labels| + 1 && a <= i <= |labels| && Settled(run[a], id)
  {
    && (forall b :: 0 <= b < i && labels[b].BeginTick? ==> !NodeMissing(run[a].entries[id], labels[b].v.active))
    && !GivingUp(run[a], id) && run[a].entries[id].state == Warm && Recent(w, labels, i, run[a].entries[id].lastUsedAt)
    && (forall k :: a <= k < i ==>
          && !Fails(run[k], labels[k], m, id) && !Replaced(run[k], labels[k], m, id)
          && (labels[k].Use? && labels[k].id == id ==> Recent(w, labels, i, labels[k].now)))
  }

  // What such an entry still is.
  ghost predicate StillWell(w: World, run: seq<State>, labels: seq<Step>, a: nat, k: nat, i: nat, m: string, id: Uid)
    requires |run| == |labels| + 1 && a <= k <= i <= |labels| && Settled(run[a], id)
  {
    && SettledIn(run[k], m, id) && SameSubject(run[a].entries[id], run[k].entries[id])
    && run[k].entries[id].state == Warm && Recent(w, labels, i, run[k].entries[id].lastUsedAt)
  }

  lemma {:induction false} StaysWell(w: World, run: seq<State>, labels: seq<Step>, a: nat, k: nat, i: nat, m: string,
      id: Uid)
    requires IsRun(w, run, labels) && a <= k < i <= |labels| && SettledIn(run[a], m, id)
    requires Healthy(w, run, labels, a, i, m, id) && StillWell(w, run, labels, a, k, i, m, id)
    requires Live(run[k + 1].pools, m, id)
    ensures StillWell(w, run, labels, a, k + 1, i, m, id)
  {
    hide Possible, Apply, Inv, Fails, Replaced, Recent;
    EveryStateKeepsInv(w, run, labels, k);
    assert Leads(w, run[k], labels[k], run[k + 1]);
    SettledGoesOn(w, run[k], labels[k], m, id);
  }

  // No tick tears a healthy entry down: whatever else happens, it stays in its pool, warm.
  lemma {:induction false} HealthyIsKept(w: World, run: seq<State>, labels: seq<Step>, a: nat, i: nat, m: string,
      id: Uid)
    requires IsRun(w, run, labels) && a <= i <= |labels| && SettledIn(run[a], m, id)
    requires Healthy(w, run, labels, a, i, m, id)
    ensures Live(run[i].pools, m, id) && Settled(run[i], id) && run[i].entries[id].state == Warm
  {
    StillWellUpTo(w, run, labels, a, i, i, m, id);
  }

  lemma {:induction false} StillWellUpTo(w: World, run: seq<State>, labels: seq<Step>, a: nat, k: nat, i: nat,
      m: string, id: Uid)
    requires IsRun(w, run, labels) && a <= k <= i <= |labels| && SettledIn(run[a], m, id)
    requires Healthy(w, run, labels, a, i, m, id)
    ensures StillWell(w, run, labels, a, k, i, m, id)
    decreases k
  {
    hide Possible, Apply, Inv, Fails, Replaced;
    if k > a {
      StillWellUpTo(w, run, labels, a, k - 1, i, m, id);
      if !Live(run[k].pools, m, id) {
        SettledEntryLeaves(w, run, labels, k - 1, m, id);
        assert !Replaced(run[k - 1], labels[k - 1], m, id);
        var b, j :| j < k - 1 && FoundUnwell(w, run, labels, b, j, id)
                    && forall x :: j < x <= k - 1 ==> GivingUp(run[x], id);
        assert j >= a;
        StillWellUpTo(w, run, labels, a, j, i, m, id);
        WellIsNotUnwell(w, run, labels, a, b, j, i, m, id);
      }
      StaysWell(w, run, labels, a, k - 1, i, m, id);
    }
  }

  lemma {:induction false} WellIsNotUnwell(w: World, run: seq<State>, labels: seq<Step>, a: nat, b: int, j: nat,
      i: nat, m: string, id: Uid)
    requires |run| == |labels| + 1 && a <= j < i <= |labels| && Settled(run[a], id)
    requires Healthy(w, run, labels, a, i, m, id) && StillWell(w, run, labels, a, j, i, m, id)
    ensures !FoundUnwell(w, run, labels, b, j, id)
  {
    hide Fails, Replaced;
  }

  // ---------------------------------------------------------------- what is torn down

  // Reasons to go that last: a node missing from the tick's snapshot, a failure, and idleness if nobody uses the entry
  // meanwhile.
  predicate Unfit(e: Entry, active: set<string>, now: int, idleGraceMs: int, used: bool) {
    && e.state != Assembling
    && (NodeMissing(e, active) || e.state == Failed || (!used && now - e.lastUsedAt > idleGraceMs))
  }

  // The check still has to come to the entry, or is waiting for its launcher to stop.
  ghost predicate Due(t: Tick, m: string, id: Uid) {
    && (t.Checking? || t.TearingDown?)
    && (m in t.models || (t.model == m && (id in t.todo || (t.TearingDown? && t.victim == id))))
  }

  // An unfit entry that is still pooled is due.
  ghost predicate Going(w: World, s: State, m: string, id: Uid, used: bool) {
    && (s.tick.Checking? || s.tick.TearingDown?) && Settled(s, id)
    && (Live(s.pools, m, id) ==>
          Unfit(s.entries[id], s.tick.active, s.tick.now, w.idleGraceMs, used) && Due(s.tick, m, id))
  }

  lemma {:induction false} StaysUnfit(s: State, step: Step, s': State, m: string, id: Uid, active: set<string>,
      now: int,
      idleGraceMs: int, used: bool)
    requires Stays(s, step, s', m, id) && Unfit(s.entries[id], active, now, idleGraceMs, used) && Settled(s', id)
    requires !used ==> !(step.Use? && step.id == id)
    ensures Unfit(s'.entries[id], active, now, idleGraceMs, used)
  {
    hide Fails;
  }

  lemma {:induction false} GoesOn(w: World, s: State, step: Step, m: string, id: Uid, used: bool)
    requires Inv(w, s) && Possible(w, s, step) && Going(w, s, m, id, used) && !step.Plan?
    requires !used ==> !(step.Use? && step.id == id)
    ensures Going(w, Apply(w, s, step), m, id, used)
  {
    hide FramesOk, Exclusive, HostsOk, QueueOk, Unfit;
    SettledGoesOn(w, s, step, m, id);
    var s' := Apply(w, s, step);
    if Live(s'.pools, m, id) {
      StaysUnfit(s, step, s', m, id, s.tick.active, s.tick.now, w.idleGraceMs, used);
    }
    hide Stays;
    if !OfTick(step) {
      hide Possible, Apply;
      TickUntouched(w, s, step);
    } else {
      match step
      case CheckNext(v) => CheckKeepsDue(w, s, v, m, id, used);
      case TornDown => TornDownRemoves(w, s, m, id);
      case _ => NoOtherMove(w, s, step);
    }
  }

  lemma {:induction false} NoOtherMove(w: World, s: State, step: Step)
    requires Possible(w, s, step) && OfTick(step) && (s.tick.Checking? || s.tick.TearingDown?)
    ensures step.CheckNext? || step.TornDown? || step.Plan?
  {
  }

  lemma {:induction false} CheckKeepsDue(w: World, s: State, v: View, m: string, id: Uid, used: bool)
    requires Possible(w, s, CheckNext(v)) && Going(w, s, m, id, used)
    ensures var s' := Apply(w, s, CheckNext(v));
            && (s'.tick.Checking? || s'.tick.TearingDown?) && s'.tick.active == s.tick.active
            && s'.tick.now == s.tick.now
            && s'.pools == s.pools && s'.entries == s.entries && (Live(s.pools, m, id) ==> Due(s'.tick, m, id))
  {
    hide Judge, EndpointOf;
    if s.tick.todo != [] {
      CheckCondemnsIff(w, s, v);
    }
  }

  // Every tick reaches every entry: one that is failed, misses a node in the tick's snapshot, or is and stays idle for
  // too long, when the tick begins, has left its pool by the time the tick plans, whatever happens in between.
  lemma {:induction false} UnfitIsGone(w: World, run: seq<State>, labels: seq<Step>, b: nat, p: nat, m: string,
      id: Uid, used: bool)
    requires IsRun(w, run, labels) && b < p < |labels|
    requires !used ==> forall k :: b < k < p ==> !(labels[k].Use? && labels[k].id == id)
    requires labels[b].BeginTick? && labels[p].Plan? && forall k :: b < k < p ==> !labels[k].Plan?
    requires SettledIn(run[b], m, id)
    requires Unfit(run[b].entries[id], labels[b].v.active, labels[b].v.now, w.idleGraceMs, used)
    ensures !Live(run[p].pools, m, id)
  {
    hide Possible, Apply, Unfit;
    GoingUpTo(w, run, labels, b, p, m, id, used);
    assert Leads(w, run[p], labels[p], run[p + 1]);
    PlanComesLast(w, run[p], labels[p]);
  }

  lemma {:induction false} PlanComesLast(w: World, s: State, step: Step)
    requires Possible(w, s, step) && step.Plan?
    ensures s.tick.Checking? && s.tick.todo == [] && s.tick.models == []
  {
    hide IsPlan;
  }

  lemma {:induction false} GoingUpTo(w: World, run: seq<State>, labels: seq<Step>, b: nat, k: nat, m: string, id: Uid,
      used: bool)
    requires IsRun(w, run, labels) && b < k < |labels|
    requires !used ==> forall x :: b < x < k ==> !(labels[x].Use? && labels[x].id == id)
    requires labels[b].BeginTick? && forall x :: b < x < k ==> !labels[x].Plan?
    requires SettledIn(run[b], m, id)
    requires Unfit(run[b].entries[id], labels[b].v.active, labels[b].v.now, w.idleGraceMs, used)
    ensures Going(w, run[k], m, id, used)
    decreases k
  {
    hide Possible, Apply, Unfit, Going, Inv;
    assert Leads(w, run[k - 1], labels[k - 1], run[k]);
    EveryStateKeepsInv(w, run, labels, k - 1);
    if k == b + 1 {
      TickStartsDue(w, run[b], labels[b], m, id, used);
    } else {
      GoingUpTo(w, run, labels, b, k - 1, m, id, used);
      GoesOn(w, run[k - 1], labels[k - 1], m, id, used);
    }
  }

  lemma {:induction false} TickStartsDue(w: World, s: State, step: Step, m: string, id: Uid, used: bool)
    requires Inv(w, s) && Possible(w, s, step) && step.BeginTick?
    requires SettledIn(s, m, id) && Unfit(s.entries[id], step.v.active, step.v.now, w.idleGraceMs, used)
    ensures Going(w, Apply(w, s, step), m, id, used)
  {
    hide Unfit, NoDup, FramesOk, Exclusive, HostsOk, QueueOk;
  }
}
