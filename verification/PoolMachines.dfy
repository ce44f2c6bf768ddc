// What reaches the launchers' machines: which steps send commands, and how an agent comes and goes.
module PoolMachines {
  import opened Launchers
  import opened Options
  import opened PoolProtocol
  import opened PoolInvariant
  import opened PoolTheorems

  function AgentAt(s: State, endpoint: string): Option<string> {
    MachineAt(s.machines, endpoint).agent
  }

  function QueueAt(s: State, endpoint: string): seq<Command> {
    MachineAt(s.machines, endpoint).queue
  }

  // ---------------------------------------------------------------- what starts an agent, and what takes it away

  // The launcher answers the POST of a reservation with a 200, and an agent for the model is running.
  ghost predicate Starts(s: State, step: Step, endpoint: string, model: string, reservation: Uid) {
    && step == LauncherHandles(endpoint, Started)
    && QueueAt(s, endpoint) != []
    && QueueAt(s, endpoint)[0] == Post(model, reservation)
  }

  // Any POST that ends with a running agent.
  ghost predicate Boots(s: State, step: Step, endpoint: string) {
    step == LauncherHandles(endpoint, Started) && QueueAt(s, endpoint) != [] && QueueAt(s, endpoint)[0].Post?
  }

  // The launcher handles a DELETE.
  ghost predicate HandlesDelete(s: State, step: Step, endpoint: string) {
    step.LauncherHandles? && step.endpoint == endpoint && QueueAt(s, endpoint) != [] && QueueAt(s, endpoint)[0].Delete?
  }

  // The agent exits, the launcher starts afresh, or it handles a DELETE, or a later POST whose agent never becomes
  // healthy.
  ghost predicate Takes(s: State, step: Step, endpoint: string) {
    || step == AgentExits(endpoint)
    || step == LauncherRestarts(endpoint)
    || (step.LauncherHandles? && step.endpoint == endpoint && QueueAt(s, endpoint) != []
        && (QueueAt(s, endpoint)[0].Delete? || step.outcome == NeverHealthy))
  }

  // The launcher that a stop goes to.
  function StopTarget(launchers: seq<LauncherInfo>, e: Entry): string {
    match EndpointOf(launchers, e.launcherId) case Some(x) => x case None => e.launcherEndpoint
  }

  // A DELETE is sent by a health check that condemns an entry, or by a cold start that worked under another launcher
  // id than the entry it replaces; the ids may differ although the machine is the same.
  ghost predicate SendsDelete(w: World, s: State, step: Step, endpoint: string) {
    Possible(w, s, step) &&
    match step
    case CheckNext(v) =>
      && s.tick.todo != []
      && Condemned(Judge(s.entries[s.tick.todo[0]], s.tick.active, s.tick.now, w.idleGraceMs))
      && StopTarget(v.launchers, s.entries[s.tick.todo[0]]) == endpoint
    case SettleColdStart(m, ok, v) =>
      && ok && s.coldStarts[m].tracked.Some?
      && s.entries[s.coldStarts[m].tracked.value].launcherId != s.coldStarts[m].launcher.launcherId
      && StopTarget(v.launchers, s.entries[s.coldStarts[m].tracked.value]) == endpoint
    case _ => false
  }

  // The step that makes a reservation sends its POST.
  ghost predicate SendsPost(s: State, s': State, endpoint: string, model: string, reservation: Uid) {
    QueueAt(s', endpoint) == QueueAt(s, endpoint) + [Post(model, reservation)] && reservation == s.nextId
  }

  // ---------------------------------------------------------------- one step

  // Steps of the launchers themselves.
  predicate OfLauncher(step: Step) { step.LauncherHandles? || step.AgentExits? || step.LauncherRestarts? }

  // A step of the coordinator changes no agent, and appends at most one command to a queue.
  ghost predicate OnlySends(w: World, s: State, step: Step, s': State, endpoint: string) {
    && AgentAt(s', endpoint) == AgentAt(s, endpoint)
    && (|| QueueAt(s', endpoint) == QueueAt(s, endpoint)
        || (QueueAt(s', endpoint) == QueueAt(s, endpoint) + [Delete] && SendsDelete(w, s, step, endpoint))
        || exists model :: SendsPost(s, s', endpoint, model, s.nextId))
  }

  lemma {:induction false} CoordinatorOnlySends(w: World, s: State, step: Step, endpoint: string)
    requires Possible(w, s, step) && !OfLauncher(step)
    ensures OnlySends(w, s, step, Apply(w, s, step), endpoint)
  {
    match step
    case BeginColdStart(m, v) => BeginOnlySends(w, s, m, v, endpoint);
    case SettleColdStart(m, ok, v) => SettleOnlySends(w, s, m, ok, v, endpoint);
    case CheckNext(v) => CheckOnlySends(w, s, v, endpoint);
    case Commit(v) => CommitOnlySends(w, s, v, endpoint);
    case _ =>
  }

  lemma {:induction false} ReserveOnlySends(s: State, model: string, l: LauncherInfo, now: int, endpoint: string)
    ensures var s' := Reserve(s, model, l, now);
            && AgentAt(s', endpoint) == AgentAt(s, endpoint)
            && if endpoint == l.endpoint then SendsPost(s, s', endpoint, model, s.nextId)
               else QueueAt(s', endpoint) == QueueAt(s, endpoint)
  {
  }

  lemma {:induction false} BeginOnlySends(w: World, s: State, m: string, v: View, endpoint: string)
    requires Refs(s)
    ensures OnlySends(w, s, BeginColdStart(m, v), ColdBegin(w, s, m, v), endpoint)
  {
    hide ColdChoice, SendsDelete, Reserve;
    var choice := ColdChoice(w, s, m, v);
    if choice.Some? {
      ReserveOnlySends(s, m, choice.value, v.now, endpoint);
      assert endpoint == choice.value.endpoint ==> SendsPost(s, ColdBegin(w, s, m, v), endpoint, m, s.nextId);
    }
  }

  lemma {:induction false} CommitOnlySends(w: World, s: State, v: View, endpoint: string)
    requires Refs(s) && s.tick.Allocating? && s.tick.claims != []
    ensures OnlySends(w, s, Commit(v), TickCommit(w, s, v), endpoint)
  {
    hide ClaimedLauncherIds, SendsDelete, Reserve;
    var c := s.tick.claims[0];
    ReserveOnlySends(s, c.modelId, c.launcher, v.now, endpoint);
    if TickCommit(w, s, v).tick.Awaiting? {
      assert endpoint == c.launcher.endpoint ==> SendsPost(s, TickCommit(w, s, v), endpoint, c.modelId, s.nextId);
    }
  }

  lemma {:induction false} StopOnlySends(s: State, launchers: seq<LauncherInfo>, e: Entry, endpoint: string)
    ensures var s' := StopLauncher(s, launchers, e);
            && AgentAt(s', endpoint) == AgentAt(s, endpoint)
            && QueueAt(s', endpoint) == QueueAt(s, endpoint)
                 + if endpoint != "" && endpoint == StopTarget(launchers, e) then [Delete] else []
  {
    hide EndpointOf;
    assert QueueAt(s, endpoint) + [] == QueueAt(s, endpoint);
  }

  lemma {:induction false} SettleOnlySends(w: World, s: State, m: string, ok: bool, v: View, endpoint: string)
    requires Possible(w, s, SettleColdStart(m, ok, v))
    ensures OnlySends(w, s, SettleColdStart(m, ok, v), ColdSettle(w, s, m, ok, v), endpoint)
  {
    hide StopLauncher, StopTarget;
    var tracked := s.coldStarts[m].tracked;
    if tracked.Some? {
      StopOnlySends(s, v.launchers, s.entries[tracked.value], endpoint);
    }
    assert QueueAt(s, endpoint) + [] == QueueAt(s, endpoint);
  }

  lemma {:induction false} CheckOnlySends(w: World, s: State, v: View, endpoint: string)
    requires Possible(w, s, CheckNext(v))
    ensures OnlySends(w, s, CheckNext(v), TickCheck(w, s, v), endpoint)
  {
    hide StopLauncher, StopTarget, Judge;
    if s.tick.todo != [] {
      StopOnlySends(s, v.launchers, s.entries[s.tick.todo[0]], endpoint);
    }
    assert QueueAt(s, endpoint) + [] == QueueAt(s, endpoint);
  }

  // What happens to one machine in a step: it is sent something, handles its first command, loses its agent, or
  // nothing.
  ghost predicate Moves(w: World, s: State, step: Step, s': State, endpoint: string) {
    var q, q' := QueueAt(s, endpoint), QueueAt(s', endpoint);
    || (!OfLauncher(step) && OnlySends(w, s, step, s', endpoint))
    || (OfLauncher(step) && step.endpoint != endpoint && q' == q && AgentAt(s', endpoint) == AgentAt(s, endpoint))
    || (step == AgentExits(endpoint) && q' == q && AgentAt(s', endpoint) == None)
    || (step == LauncherRestarts(endpoint) && q' == [] && AgentAt(s', endpoint) == None)
    || (step.LauncherHandles? && step.endpoint == endpoint && q != [] && q' == q[1..]
        && MachineAt(s'.machines, endpoint) == Handle(MachineAt(s.machines, endpoint), step.outcome))
  }

  lemma {:induction false} EveryStepMoves(w: World, s: State, step: Step, endpoint: string)
    requires Possible(w, s, step)
    ensures Moves(w, s, step, Apply(w, s, step), endpoint)
    ensures s.nextId <= Apply(w, s, step).nextId
  {
    hide SendsDelete, SendsPost, OnlySends;
    if OfLauncher(step) {
      LauncherMoves(w, s, step, endpoint);
    } else {
      CoordinatorOnlySends(w, s, step, endpoint);
      IdsGrow(w, s, step);
    }
  }

  lemma {:induction false} LauncherMoves(w: World, s: State, step: Step, endpoint: string)
    requires Possible(w, s, step) && OfLauncher(step)
    ensures Moves(w, s, step, Apply(w, s, step), endpoint) && Apply(w, s, step).nextId == s.nextId
  {
    hide OnlySends, IsPlan;
  }

  lemma {:induction false} IdsGrow(w: World, s: State, step: Step)
    requires Possible(w, s, step) && !OfLauncher(step)
    ensures s.nextId <= Apply(w, s, step).nextId
  {
    hide ColdChoice, ClaimedLauncherIds, EndpointOf, Judge, IsPlan, Refs;
  }

  // ---------------------------------------------------------------- agents over a run

  // Nothing starts an agent on the machine from step k on.
  ghost predicate NoBoot(run: seq<State>, labels: seq<Step>, k: nat, i: nat, endpoint: string)
    requires |run| == |labels| + 1 && i < |run|
  {
    forall l :: k <= l < i ==> !Boots(run[l], labels[l], endpoint)
  }

  lemma {:induction false} AgentMoves(w: World, s: State, step: Step, s': State, endpoint: string)
    requires Moves(w, s, step, s', endpoint)
    ensures Takes(s, step, endpoint) ==> AgentAt(s', endpoint) == None
    ensures Boots(s, step, endpoint) ==> AgentAt(s', endpoint).Some?
    ensures AgentAt(s, endpoint).Some? && AgentAt(s', endpoint) == None ==> Takes(s, step, endpoint)
    ensures AgentAt(s, endpoint) == None && !Boots(s, step, endpoint) ==> AgentAt(s', endpoint) == None
  {
    hide SendsDelete, SendsPost;
  }

  // An agent that ran at j is gone at i if and only if something took it, or a successor, and nothing started another
  // one since.
  lemma {:induction false} AgentIsGoneIff(w: World, run: seq<State>, labels: seq<Step>, j: nat, i: nat,
      endpoint: string)
    requires IsRun(w, run, labels) && j <= i < |run| && AgentAt(run[j], endpoint).Some?
    ensures AgentAt(run[i], endpoint) == None
       <==> exists k :: j <= k < i && Takes(run[k], labels[k], endpoint) && NoBoot(run, labels, k + 1, i, endpoint)
    decreases i
  {
    hide Possible, Apply, Takes, Boots, AgentAt, Moves;
    if j < i {
      var s, step := run[i - 1], labels[i - 1];
      assert Leads(w, s, step, run[i]);
      EveryStepMoves(w, s, step, endpoint);
      AgentMoves(w, s, step, run[i], endpoint);
      AgentIsGoneIff(w, run, labels, j, i - 1, endpoint);
      if AgentAt(run[i], endpoint) == None {
        if AgentAt(s, endpoint).Some? {
          assert Takes(run[i - 1], labels[i - 1], endpoint) && NoBoot(run, labels, i - 1 + 1, i, endpoint);
        } else {
          var k :| j <= k < i - 1 && Takes(run[k], labels[k], endpoint) && NoBoot(run, labels, k + 1, i - 1, endpoint);
          assert NoBoot(run, labels, k + 1, i, endpoint);
        }
      } else if k :| j <= k < i && Takes(run[k], labels[k], endpoint) && NoBoot(run, labels, k + 1, i, endpoint) {
        assert k < i - 1 ==> NoBoot(run, labels, k + 1, i - 1, endpoint);
      }
    }
  }

  // ---------------------------------------------------------------- commands over a run

  // A queued POST was sent by the step that made its reservation.
  lemma {:induction false} PostWasSent(w: World, run: seq<State>, labels: seq<Step>, i: nat, endpoint: string,
      model: string, r: Uid)
    returns (c: nat)
    requires IsRun(w, run, labels) && i < |run| && Post(model, r) in QueueAt(run[i], endpoint)
    ensures c < i && SendsPost(run[c], run[c + 1], endpoint, model, r)
    decreases i
  {
    hide Possible, Apply, SendsDelete;
    var s, step := run[i - 1], labels[i - 1];
    assert Leads(w, s, step, run[i]);
    EveryStepMoves(w, s, step, endpoint);
    if Post(model, r) in QueueAt(s, endpoint) {
      c := PostWasSent(w, run, labels, i - 1, endpoint, model, r);
    } else {
      c := i - 1;
      assert run[c + 1] == run[i];
    }
  }

  // A queued DELETE was sent by a condemning health check or a cold start under another id; and by one that came after
  // a POST was sent, unless the POST still stands behind it.
  lemma {:induction false} DeleteWasSent(w: World, run: seq<State>, labels: seq<Step>, c: nat, i: nat, endpoint: string,
      model: string, r: Uid, q: nat)
    returns (d: nat)
    requires IsRun(w, run, labels) && c < i < |run| && SendsPost(run[c], run[c + 1], endpoint, model, r)
    requires q < |QueueAt(run[i], endpoint)| && QueueAt(run[i], endpoint)[q].Delete?
    requires forall p :: q <= p < |QueueAt(run[i], endpoint)| ==> !IsPostOf(QueueAt(run[i], endpoint)[p], r)
    ensures c < d < i && SendsDelete(w, run[d], labels[d], endpoint)
    decreases i
  {
    hide Possible, Apply, SendsDelete;
    var now, before := QueueAt(run[i], endpoint), QueueAt(run[i - 1], endpoint);
    LastIsPost(run[c], run[c + 1], endpoint, model, r);
    d := i - 1;
    if i > c + 1 {
      var step := labels[i - 1];
      assert Leads(w, run[i - 1], step, run[i]);
      EveryStepMoves(w, run[i - 1], step, endpoint);
      if q < |before| <= |now| {
        assert forall p :: 0 <= p < |before| ==> before[p] == now[p];
        d := DeleteWasSent(w, run, labels, c, i - 1, endpoint, model, r, q);
      } else if q < |before| {
        assert forall p :: 0 <= p < |now| ==> now[p] == before[p + 1];
        d := DeleteWasSent(w, run, labels, c, i - 1, endpoint, model, r, q + 1);
      }
    }
  }

  lemma {:induction false} LastIsPost(s: State, s': State, endpoint: string, model: string, r: Uid)
    requires SendsPost(s, s', endpoint, model, r)
    ensures var q := QueueAt(s', endpoint); q != [] && IsPostOf(q[|q| - 1], r)
  {
  }

  predicate IsPostOf(c: Command, r: Uid) { c.Post? && c.tag == r }

  // A POST once answered never stands in the queue again.
  lemma {:induction false} AnsweredPostIsGone(w: World, run: seq<State>, labels: seq<Step>, j: nat, i: nat,
      endpoint: string, model: string, r: Uid)
    requires IsRun(w, run, labels) && j < i < |run| && Starts(run[j], labels[j], endpoint, model, r)
    ensures r < run[i].nextId
    ensures forall p :: 0 <= p < |QueueAt(run[i], endpoint)| ==> !IsPostOf(QueueAt(run[i], endpoint)[p], r)
    decreases i
  {
    hide Possible, Apply, SendsDelete, Inv;
    var s, step := run[i - 1], labels[i - 1];
    assert Leads(w, s, step, run[i]);
    EveryStepMoves(w, s, step, endpoint);
    if i == j + 1 {
      EveryStateKeepsInv(w, run, labels, j);
      HeadIsLeast(w, s, endpoint, model, r);
    } else {
      AnsweredPostIsGone(w, run, labels, j, i - 1, endpoint, model, r);
    }
  }

  lemma {:induction false} HeadIsLeast(w: World, s: State, endpoint: string, model: string, r: Uid)
    requires Inv(w, s) && QueueAt(s, endpoint) != [] && QueueAt(s, endpoint)[0] == Post(model, r)
    ensures r < s.nextId
    ensures forall p :: 0 < p < |QueueAt(s, endpoint)| ==> !IsPostOf(QueueAt(s, endpoint)[p], r)
  {
    hide FramesOk, Exclusive, HostsOk;
    assert QueueOk(s, endpoint) && QueueAt(s, endpoint)[0] in QueueAt(s, endpoint);
  }

  // ---------------------------------------------------------------- a cold start that stops its own agent

  // The stop at the end of a cold start goes to the machine of the agent it has just started if and only if the entry
  // it replaces carries another launcher id and the stop, looking up that id and failing that the recorded endpoint,
  // resolves to that machine.
  lemma {:induction false} OwnAgentIsStoppedIff(w: World, s: State, m: string, v: View)
    requires Inv(w, s) && Possible(w, s, SettleColdStart(m, true, v))
    ensures var c := s.coldStarts[m];
            var e := c.launcher.endpoint;
            && c.reservation in s.entries && s.entries[c.reservation].launcherEndpoint == e
            && (QueueAt(Apply(w, s, SettleColdStart(m, true, v)), e) == QueueAt(s, e) + [Delete]
                <==> c.tracked.Some? && s.entries[c.tracked.value].launcherId != c.launcher.launcherId
                     && StopTarget(v.launchers, s.entries[c.tracked.value]) == e)
  {
    hide Exclusive, HostsOk, QueueOk, StopLauncher, StopTarget;
    var c := s.coldStarts[m];
    assert ColdOk(s, m) && Live(s.pools, m, c.reservation);
    if c.tracked.Some? {
      StopOnlySends(s, v.launchers, s.entries[c.tracked.value], c.launcher.endpoint);
    }
  }
}
