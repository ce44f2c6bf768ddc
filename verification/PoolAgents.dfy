// Why the agent behind a settled pool entry may be absent. The program does not keep "every warm entry's agent is
// running", but it starts an agent for every entry, and only a few things can take that agent away.
module PoolAgents {
  import opened Launchers
  import opened Options
  import opened Seqs
  import opened PoolProtocol
  import opened PoolInvariant
  import opened PoolMachines
  import opened PoolSteps
  import opened PoolTheorems

  // The swap of a reservation for the warm entry.
  ghost predicate Becomes(s: State, step: Step, model: string, reservation: Uid, id: Uid) {
    && id == s.nextId
    && match step
       case SettleColdStart(m, ok, _) => ok && m == model && ColdAwaits(s, m, reservation)
       case OldLauncherStopped(m, _) => m == model && ColdAwaits(s, m, reservation)
       case SettleClaim(ok, _) => ok && TickAwaits(s, model, reservation)
       case _ => false
  }

  // ---------------------------------------------------------------- entries and their reservations

  // The entry is settled, or the launcher has answered its POST with a 200.
  ghost predicate Answered(s: State, id: Uid) {
    id in s.entries && (s.entries[id].state != Assembling || id in s.replies)
  }

  // An answered reservation that still stands in its pool.
  ghost predicate WasReserved(s: State, m: string, r: Uid) {
    Live(s.pools, m, r) && Answered(s, r) && s.entries[r].state == Assembling
  }

  // An answered entry after a step was one before it, or is being answered just now, or takes the place of an answered
  // reservation of its model on the same machine.
  ghost predicate HasOrigin(s: State, step: Step, s': State, m: string, id: Uid)
    requires id in s'.entries
  {
    var e := s'.entries[id].launcherEndpoint;
    || (Live(s.pools, m, id) && Answered(s, id) && s.entries[id].launcherEndpoint == e
        && (s'.entries[id].state == Assembling ==> s.entries[id].state == Assembling))
    || Starts(s, step, e, m, id)
    || (s'.entries[id].state != Assembling
        && exists r :: Becomes(s, step, m, r, id) && WasReserved(s, m, r) && s.entries[r].launcherEndpoint == e)
  }

  lemma {:induction false} StepOrigin(w: World, s: State, step: Step, m: string, id: Uid)
    requires Inv(w, s) && Possible(w, s, step)
    requires var s' := Apply(w, s, step); Live(s'.pools, m, id) && Answered(s', id)
    ensures HasOrigin(s, step, Apply(w, s, step), m, id)
  {
    hide FramesOk, Exclusive, HostsOk, QueueOk, NoDup, HasOrigin, ColdBegin, ColdSettle, ColdFinish, TickCommit,
      TickSettle, TickTornDown, TickCheck, ForwardFailed, Handle, IsPlan, Refs;
    match step
    case BeginColdStart(model, v) => BeginOrigin(w, s, model, v, m, id);
    case SettleColdStart(model, ok, v) => SettleOrigin(w, s, model, ok, v, m, id);
    case OldLauncherStopped(model, v) =>
      StoppingIsAnswered(w, s, model);
      FinishOrigin(w, s, step, model, v.now, m, id);
    case Commit(v) => CommitOrigin(w, s, v, m, id);
    case SettleClaim(ok, now) => ClaimOrigin(w, s, ok, now, m, id);
    case LauncherHandles(endpoint, outcome) => HandleOrigin(w, s, endpoint, outcome, m, id);
    case TornDown => TornDownOrigin(w, s, m, id);
    case FailForward(model, driver) => ForwardOrigin(w, s, model, driver, m, id);
    case _ => OtherOrigin(w, s, step, m, id);
  }

  lemma {:induction false} BeginOrigin(w: World, s: State, model: string, v: View, m: string, id: Uid)
    requires PoolsOk(w, s)
    requires var s' := ColdBegin(w, s, model, v); Live(s'.pools, m, id) && Answered(s', id)
    ensures HasOrigin(s, BeginColdStart(model, v), ColdBegin(w, s, model, v), m, id)
  {
    hide ColdChoice, NoDup;
    assert s.nextId !in s.entries;
    assert id != s.nextId ==> Live(s.pools, m, id);
  }

  lemma {:induction false} CommitOrigin(w: World, s: State, v: View, m: string, id: Uid)
    requires PoolsOk(w, s) && s.tick.Allocating? && s.tick.claims != []
    requires var s' := TickCommit(w, s, v); Live(s'.pools, m, id) && Answered(s', id)
    ensures HasOrigin(s, Commit(v), TickCommit(w, s, v), m, id)
  {
    hide ClaimedLauncherIds, NoDup;
    assert s.nextId !in s.entries;
    assert id != s.nextId ==> Live(s.pools, m, id);
  }

  lemma {:induction false} FinishOrigin(w: World, s: State, step: Step, model: string, now: int, m: string, id: Uid)
    requires PoolsOk(w, s) && model in s.coldStarts && ColdOk(s, model) && s.coldStarts[model].reservation in s.replies
    requires var s' := ColdFinish(w, s, model, now); Live(s'.pools, m, id) && Answered(s', id)
    requires (step.SettleColdStart? && step.ok && step.model == model)
        || (step.OldLauncherStopped? && step.model == model)
    ensures HasOrigin(s, step, ColdFinish(w, s, model, now), m, id)
  {
    ClearedPools(s, model);
    hide NoDup;
    assert s.nextId !in s.entries;
    var r := s.coldStarts[model].reservation;
    if id == s.nextId {
      assert m == model by {
        assert ColdFinish(w, s, model, now).pools
            == Cleared(s, model).pools[model := Pool(Cleared(s, model).pools, model) + [s.nextId]];
        assert !Live(s.pools, m, id);
      }
      assert Becomes(s, step, m, r, id) && WasReserved(s, m, r);
    } else {
      assert Live(Cleared(s, model).pools, m, id);
    }
  }

  lemma {:induction false} SettleOrigin(w: World, s: State, model: string, ok: bool, v: View, m: string, id: Uid)
    requires Inv(w, s) && Possible(w, s, SettleColdStart(model, ok, v))
    requires var s' := ColdSettle(w, s, model, ok, v); Live(s'.pools, m, id) && Answered(s', id)
    ensures HasOrigin(s, SettleColdStart(model, ok, v), ColdSettle(w, s, model, ok, v), m, id)
  {
    hide Exclusive, HostsOk, QueueOk, HasOrigin, ColdFinish, StopLauncher;
    var c := s.coldStarts[model];
    assert ColdOk(s, model);
    if !ok {
      FailOrigin(w, s, model, v, m, id);
    } else if c.tracked.Some? && s.entries[c.tracked.value].launcherId != c.launcher.launcherId {
      StopOrigin(w, s, model, v, m, id);
    } else {
      FinishOrigin(w, s, SettleColdStart(model, ok, v), model, v.now, m, id);
    }
  }

  lemma {:induction false} FailOrigin(w: World, s: State, model: string, v: View, m: string, id: Uid)
    requires PoolsOk(w, s) && FramesOk(w, s) && model in s.coldStarts
    requires var s' := ColdSettle(w, s, model, false, v); Live(s'.pools, m, id) && Answered(s', id)
    ensures HasOrigin(s, SettleColdStart(model, false, v), ColdSettle(w, s, model, false, v), m, id)
  {
    FailDrops(w, s, model, v);
    hide FramesOk, NoDup, ColdSettle;
    assert Live(s.pools, m, id) && SameHost(s.entries[id], ColdSettle(w, s, model, false, v).entries[id]);
  }

  lemma {:induction false} StopOrigin(w: World, s: State, model: string, v: View, m: string, id: Uid)
    requires Refs(s) && model in s.coldStarts
    requires var c := s.coldStarts[model];
             c.tracked.Some? && s.entries[c.tracked.value].launcherId != c.launcher.launcherId
    requires var s' := ColdSettle(w, s, model, true, v); Live(s'.pools, m, id) && Answered(s', id)
    ensures HasOrigin(s, SettleColdStart(model, true, v), ColdSettle(w, s, model, true, v), m, id)
  {
    hide EndpointOf;
    assert Live(s.pools, m, id);
  }

  lemma {:induction false} ClaimPools(w: World, s: State, ok: bool, now: int)
    requires PoolsOk(w, s) && s.tick.Awaiting?
    ensures var s', m0, r := TickSettle(w, s, ok, now), s.tick.claim.modelId, s.tick.reservation;
            && (forall m, id :: Live(s'.pools, m, id) ==>
                  (Live(s.pools, m, id) && !(m == m0 && id == r)) || (ok && m == m0 && id == s.nextId))
            && s'.replies == s.replies && (!ok ==> s'.entries == s.entries)
            && (ok ==> && s'.entries == s.entries[s.nextId := s'.entries[s.nextId]] && s.nextId in s'.entries
                       && s'.entries[s.nextId].state == Warm && s'.entries[s.nextId].launcherEndpoint
                           == s.tick.claim.launcher.endpoint)
  {
    Removed(s, s.tick.claim.modelId, s.tick.reservation);
  }

  lemma {:induction false} ClaimOrigin(w: World, s: State, ok: bool, now: int, m: string, id: Uid)
    requires Inv(w, s) && Possible(w, s, SettleClaim(ok, now))
    requires var s' := TickSettle(w, s, ok, now); Live(s'.pools, m, id) && Answered(s', id)
    ensures HasOrigin(s, SettleClaim(ok, now), TickSettle(w, s, ok, now), m, id)
  {
    hide Exclusive, HostsOk, QueueOk, NoDup, TickSettle;
    ClaimPools(w, s, ok, now);
    assert s.nextId !in s.entries;
    if id == s.nextId {
      assert !Live(s.pools, m, id);
      assert Becomes(s, SettleClaim(ok, now), m, s.tick.reservation, id) && WasReserved(s, m, s.tick.reservation);
    }
  }

  lemma {:induction false} TornDownOrigin(w: World, s: State, m: string, id: Uid)
    requires PoolsOk(w, s) && s.tick.TearingDown?
    requires var s' := TickTornDown(s); Live(s'.pools, m, id) && Answered(s', id)
    ensures HasOrigin(s, TornDown, TickTornDown(s), m, id)
  {
    Removed(s, s.tick.model, s.tick.victim);
    assert Live(s.pools, m, id);
  }

  lemma {:induction false} HandleOrigin(w: World, s: State, endpoint: string, outcome: Outcome, m: string, id: Uid)
    requires Inv(w, s) && Possible(w, s, LauncherHandles(endpoint, outcome))
    requires var s' := Apply(w, s, LauncherHandles(endpoint, outcome)); Live(s'.pools, m, id) && Answered(s', id)
    ensures HasOrigin(s, LauncherHandles(endpoint, outcome), Apply(w, s, LauncherHandles(endpoint, outcome)), m, id)
  {
    hide FramesOk, Exclusive, NoDup;
    assert Live(s.pools, m, id);
    assert HostOk(s, m, id) && QueueOk(s, endpoint);
    var head := MachineAt(s.machines, endpoint).queue[0];
    assert head in MachineAt(s.machines, endpoint).queue;
  }

  lemma {:induction false} ForwardOrigin(w: World, s: State, model: string, driver: string, m: string, id: Uid)
    requires PoolsOk(w, s) && driver != ""
    requires var s' := ForwardFailed(s, model, driver); Live(s'.pools, m, id) && Answered(s', id)
    ensures HasOrigin(s, FailForward(model, driver), ForwardFailed(s, model, driver), m, id)
  {
    hide NoDup;
    assert Live(s.pools, m, id);
  }

  lemma {:induction false} CheckLeaves(w: World, s: State, v: View)
    requires Possible(w, s, CheckNext(v))
    ensures var s' := TickCheck(w, s, v); s'.pools == s.pools && s'.entries == s.entries && s'.replies == s.replies
  {
    hide Judge, EndpointOf;
  }

  lemma {:induction false} StoppingIsAnswered(w: World, s: State, model: string)
    requires FramesOk(w, s) && model in s.coldStarts && s.coldStarts[model].phase == Stopping
    ensures ColdOk(s, model) && s.coldStarts[model].reservation in s.replies
  {
    assert ColdOk(s, model);
  }

  lemma {:induction false} OtherOrigin(w: World, s: State, step: Step, m: string, id: Uid)
    requires PoolsOk(w, s) && Possible(w, s, step)
    requires step.Use? || step.BeginTick? || step.CheckNext? || step.Plan? || step.EndTick?
             || step.AgentExits? || step.LauncherRestarts?
    requires var s' := Apply(w, s, step); Live(s'.pools, m, id) && Answered(s', id)
    ensures HasOrigin(s, step, Apply(w, s, step), m, id)
  {
    hide NoDup, Judge, StopLauncher, IsPlan, Refs;
    if step.CheckNext? {
      CheckLeaves(w, s, step.v);
    }
    hide TickCheck;
    assert Live(s.pools, m, id);
  }

  // ---------------------------------------------------------------- whole runs

  // Behind every answered entry stands a POST for its model that its launcher answered with a 200: that of the entry's
  // own reservation, whose place the entry then took.
  lemma {:induction false} EntryWasStarted(w: World, run: seq<State>, labels: seq<Step>, i: nat, m: string, id: Uid)
    returns (j: nat, r: Uid)
    requires IsRun(w, run, labels) && i < |run|
    requires Live(run[i].pools, m, id) && Answered(run[i], id)
    ensures j < i && Starts(run[j], labels[j], run[i].entries[id].launcherEndpoint, m, r)
    ensures r == id || exists c :: j < c < i && Becomes(run[c], labels[c], m, r, id)
    ensures run[i].entries[id].state == Assembling ==> r == id
    decreases i
  {
    hide Possible, Apply, Inv, Starts, Becomes;
    assert i > 0;
    var s, step := run[i - 1], labels[i - 1];
    assert Leads(w, s, step, run[i]);
    EveryStateKeepsInv(w, run, labels, i - 1);
    StepOrigin(w, s, step, m, id);
    var e := run[i].entries[id].launcherEndpoint;
    if Live(s.pools, m, id) && Answered(s, id) && s.entries[id].launcherEndpoint == e
       && (run[i].entries[id].state == Assembling ==> s.entries[id].state == Assembling) {
      j, r := EntryWasStarted(w, run, labels, i - 1, m, id);
    } else if Starts(s, step, e, m, id) {
      j, r := i - 1, id;
    } else {
      var r0 :| Becomes(s, step, m, r0, id) && WasReserved(s, m, r0) && s.entries[r0].launcherEndpoint == e;
      j, r := EntryWasStarted(w, run, labels, i - 1, m, r0);
      assert Becomes(run[i - 1], labels[i - 1], m, r, id);
    }
  }

  // Every settled entry goes back to a POST that was sent when its reservation was made and answered with a 200. Its
  // agent is absent now if and only if, since that 200, something took an agent away and no POST started another one;
  // otherwise an agent for its model is running. What takes an agent away is named by Takes; a DELETE among it was sent
  // by a condemning health check or a cold start under another launcher id, after the entry's own POST was sent.
  lemma {:induction false} AgentIsAbsentIff(w: World, run: seq<State>, labels: seq<Step>, i: nat, m: string, id: Uid)
    returns (c: nat, j: nat, r: Uid)
    requires IsRun(w, run, labels) && i < |run| && id in Pool(run[i].pools, m)
    requires id in run[i].entries && run[i].entries[id].state != Assembling
    ensures var e := run[i].entries[id].launcherEndpoint;
            && c < j < i && SendsPost(run[c], run[c + 1], e, m, r) && Starts(run[j], labels[j], e, m, r)
            && (r == id || exists b :: j < b < i && Becomes(run[b], labels[b], m, r, id))
            && (AgentAt(run[i], e) == None
                <==> exists k :: j < k < i && Takes(run[k], labels[k], e) && NoBoot(run, labels, k + 1, i, e))
            && (AgentAt(run[i], e) == None || AgentAt(run[i], e) == Some(m))
            && (forall k :: j < k < i && HandlesDelete(run[k], labels[k], e)
                  ==> exists d :: c < d < k && SendsDelete(w, run[d], labels[d], e))
  {
    hide Possible, Apply, Inv, SendsDelete, SendsPost, Becomes, Takes, NoBoot;
    var e := run[i].entries[id].launcherEndpoint;
    assert Live(run[i].pools, m, id);
    j, r := EntryWasStarted(w, run, labels, i, m, id);
    assert Leads(w, run[j], labels[j], run[j + 1]);
    StartedRuns(w, run[j], labels[j], run[j + 1], e, m, r);
    AgentIsGoneIff(w, run, labels, j + 1, i, e);
    WrongWeightsSafety(w, run, labels, i, m, id);
    c := PostWasSent(w, run, labels, j, e, m, r);
    forall k | j < k < i && HandlesDelete(run[k], labels[k], e)
      ensures exists d :: c < d < k && SendsDelete(w, run[d], labels[d], e)
    {
      AnsweredPostIsGone(w, run, labels, j, k, e, m, r);
      var d := DeleteWasSent(w, run, labels, c, k, e, m, r, 0);
    }
  }

  lemma {:induction false} StartedRuns(w: World, s: State, step: Step, s': State, endpoint: string, m: string, r: Uid)
    requires Leads(w, s, step, s') && Starts(s, step, endpoint, m, r)
    ensures AgentAt(s', endpoint) == Some(m)
  {
  }
}
