// What every step of the pool protocol keeps: the invariant and how the elementary changes preserve it.
module PoolInvariant {
  import opened Options
  import opened Seqs
  import opened Catalog
  import opened Launchers
  import opened AllocationPlanner
  import opened PoolProtocol

  // ---------------------------------------------------------------- the invariant, part by part

  // Pools are duplicate-free, pairwise disjoint, belong to tracked models, and use issued ids only.
  ghost predicate PoolsOk(w: World, s: State) {
    && Refs(s)
    && (forall m :: NoDup(Pool(s.pools, m)))
    && (forall m1, m2, id :: Live(s.pools, m1, id) && Live(s.pools, m2, id) ==> m1 == m2)
    && (forall m, id :: Live(s.pools, m, id) ==>
          id in s.entries && m in MultiPipelineModelIds(w.catalog) && s.entries[id].launcherEndpoint != "")
    && (forall id :: id in s.entries ==>
          id < s.nextId && (s.entries[id].state == Assembling ==> s.entries[id].driverNodeId == ""))
    && (forall id :: id in s.replies ==> id in s.entries)
  }

  ghost predicate TickAwaits(s: State, model: string, id: Uid) {
    s.tick.Awaiting? && s.tick.claim.modelId == model && s.tick.reservation == id
  }

  ghost predicate ColdAwaits(s: State, model: string, id: Uid) {
    model in s.coldStarts && s.coldStarts[model].reservation == id
  }

  // The reservation stands in its pool under the launcher it was made for.
  ghost predicate Reserved(s: State, model: string, id: Uid, l: LauncherInfo) {
    && Live(s.pools, model, id) && id in s.entries
    && s.entries[id].state == Assembling
    && s.entries[id].launcherId == l.launcherId && s.entries[id].launcherEndpoint == l.endpoint
  }

  ghost predicate Settled(s: State, id: Uid) {
    id in s.entries && s.entries[id].state != Assembling
  }

  ghost predicate ColdOk(s: State, model: string) {
    model in s.coldStarts ==>
      var c := s.coldStarts[model];
      && Reserved(s, model, c.reservation, c.launcher)
      && !TickAwaits(s, model, c.reservation)
      && (c.phase == Stopping ==> c.reservation in s.replies)
      && (c.tracked.Some? ==> c.tracked.value != c.reservation && Settled(s, c.tracked.value))
  }

  function UnspentClaims(t: Tick): seq<PipelineClaim> {
    if t.Allocating? || t.Awaiting? then t.claims else []
  }

  ghost predicate TickOk(w: World, s: State) {
    && (s.tick.Awaiting? ==> Reserved(s, s.tick.claim.modelId, s.tick.reservation, s.tick.claim.launcher))
    && (s.tick.TearingDown? ==> Settled(s, s.tick.victim))
    && (forall c :: c in UnspentClaims(s.tick)
          ==> c.modelId in MultiPipelineModelIds(w.catalog) && c.launcher.endpoint != "")
  }

  // Assembling entries and in-flight assemblies correspond.
  ghost predicate FramesOk(w: World, s: State) {
    && (forall m, id :: Live(s.pools, m, id) ==> Settled(s, id) || ColdAwaits(s, m, id) || TickAwaits(s, m, id))
    && (forall m :: ColdOk(s, m))
    && TickOk(w, s)
  }

  predicate SharesLauncher(a: Entry, b: Entry) {
    a.launcherId == b.launcherId || a.launcherEndpoint == b.launcherEndpoint
  }

  // `r` is a cold start's reservation and `t` the stale entry it is about to replace.
  ghost predicate Replaces(s: State, model: string, r: Uid, t: Uid) {
    ColdAwaits(s, model, r) && s.coldStarts[model].tracked == Some(t)
  }

  // Two pool entries never share a launcher, except a cold start's reservation and the stale entry of the
  // same model it replaces.
  ghost predicate Apart(s: State, m1: string, a: Uid, m2: string, b: Uid) {
    (a != b && a in s.entries && b in s.entries && SharesLauncher(s.entries[a], s.entries[b]))
    ==> m1 == m2 && (Replaces(s, m1, a, b) || Replaces(s, m1, b, a))
  }

  ghost predicate Exclusive(s: State) {
    forall m1, a, m2, b :: Live(s.pools, m1, a) && Live(s.pools, m2, b) ==> Apart(s, m1, a, m2, b)
  }

  // The agent is absent or runs the model, and no queued POST will start another one.
  ghost predicate OnlyRuns(mach: Machine, model: string) {
    && (mach.agent.None? || mach.agent == Some(model))
    && forall c :: c in mach.queue && c.Post? ==> c.model == model
  }

  // The reservation's POST is the last one sent; once answered, nothing is queued behind it but stops.
  ghost predicate LastPostIs(mach: Machine, model: string, r: Uid, answered: bool) {
    && (forall c :: c in mach.queue && c.Post? ==> c.tag <= r && (c.tag == r ==> c.model == model))
    && (answered ==> OnlyRuns(mach, model) && forall c :: c in mach.queue ==> c.Delete?)
  }

  ghost predicate HostOk(s: State, model: string, id: Uid) {
    id in s.entries &&
    var mach := MachineAt(s.machines, s.entries[id].launcherEndpoint);
    if s.entries[id].state == Assembling then LastPostIs(mach, model, id, id in s.replies) else OnlyRuns(mach, model)
  }

  ghost predicate HostsOk(s: State) {
    forall m, id :: Live(s.pools, m, id) ==> HostOk(s, m, id)
  }

  // Queued POSTs carry increasing reservations, each made for this very endpoint.
  ghost predicate QueueOk(s: State, e: string) {
    var q := MachineAt(s.machines, e).queue;
    && (forall j, k :: 0 <= j < k < |q| && q[j].Post? && q[k].Post? ==> q[j].tag < q[k].tag)
    && (forall c :: c in q && c.Post? ==> c.tag in s.entries && s.entries[c.tag].launcherEndpoint == e)
  }

  ghost predicate Inv(w: World, s: State) {
    && PoolsOk(w, s)
    && FramesOk(w, s)
    && Exclusive(s)
    && HostsOk(s)
    && forall e :: QueueOk(s, e)
  }

  // ---------------------------------------------------------------- shrinking

  // Same launcher, and not newly or no longer assembling.
  ghost predicate SameHost(e: Entry, e': Entry) {
    && e'.launcherId == e.launcherId && e'.launcherEndpoint == e.launcherEndpoint
    && (e'.state == Assembling <==> e.state == Assembling)
    && (e.state == Assembling ==> e'.driverNodeId == e.driverNodeId)
  }

  // Entries may leave their pools and change in place; nothing is added and no machine hears of it.
  ghost predicate Shrinks(s: State, s': State) {
    && s'.entries.Keys == s.entries.Keys && s'.nextId == s.nextId && s'.machines == s.machines
    && s'.replies == s.replies
    && (forall id :: id in s.entries ==> SameHost(s.entries[id], s'.entries[id]))
    && (forall m, id :: Live(s'.pools, m, id) ==> Live(s.pools, m, id))
    && (forall m :: NoDup(Pool(s'.pools, m)))
    && (forall m, r, t :: Replaces(s, m, r, t) && Live(s'.pools, m, r) && Live(s'.pools, m, t)
          ==> Replaces(s', m, r, t))
  }

  lemma {:induction false} ShrinkKeeps(w: World, s: State, s': State)
    requires Inv(w, s) && Shrinks(s, s') && Refs(s') && FramesOk(w, s')
    ensures Inv(w, s')
  {
    ShrinkKeepsPools(w, s, s');
    ShrinkKeepsExclusive(w, s, s');
    ShrinkKeepsHosts(w, s, s');
  }

  lemma {:induction false} ShrinkKeepsPools(w: World, s: State, s': State)
    requires PoolsOk(w, s) && Shrinks(s, s') && Refs(s')
    ensures PoolsOk(w, s')
  {
  }

  lemma {:induction false} ShrinkKeepsExclusive(w: World, s: State, s': State)
    requires PoolsOk(w, s) && Exclusive(s) && Shrinks(s, s') && Refs(s')
    ensures Exclusive(s')
  {
    forall m1, a, m2, b | Live(s'.pools, m1, a) && Live(s'.pools, m2, b) ensures Apart(s', m1, a, m2, b) {
      assert Live(s.pools, m1, a) && Live(s.pools, m2, b);
      assert Apart(s, m1, a, m2, b);
      assert SameHost(s.entries[a], s'.entries[a]) && SameHost(s.entries[b], s'.entries[b]);
    }
  }

  lemma {:induction false} ShrinkKeepsHosts(w: World, s: State, s': State)
    requires PoolsOk(w, s) && HostsOk(s) && Shrinks(s, s') && Refs(s')
    requires forall e :: QueueOk(s, e)
    ensures HostsOk(s')
    ensures forall e :: QueueOk(s', e)
  {
    forall m, id | Live(s'.pools, m, id) ensures HostOk(s', m, id) {
      assert Live(s.pools, m, id) && HostOk(s, m, id) && SameHost(s.entries[id], s'.entries[id]);
    }
    forall e ensures QueueOk(s', e) {
      assert QueueOk(s, e);
      forall c | c in MachineAt(s'.machines, e).queue && c.Post? ensures c.tag in s'.entries
          && s'.entries[c.tag].launcherEndpoint == e {
        assert SameHost(s.entries[c.tag], s'.entries[c.tag]);
      }
    }
  }

  lemma {:induction false} Removed(s: State, model: string, id: Uid)
    requires forall m :: NoDup(Pool(s.pools, m))
    ensures var s' := RemoveEntry(s, model, id);
            && (forall m :: NoDup(Pool(s'.pools, m)))
            && (forall m, x :: Live(s'.pools, m, x) <==> Live(s.pools, m, x) && !(m == model && x == id))
            && (forall m :: m != model ==> Pool(s'.pools, m) == Pool(s.pools, m))
            && |Pool(s'.pools, model)| == |Pool(s.pools, model)| - (if Live(s.pools, model, id) then 1 else 0)
  {
    var s' := RemoveEntry(s, model, id);
    assert NoDup(Pool(s.pools, model));
    WithoutFacts(Pool(s.pools, model), id);
    assert Pool(s'.pools, model) == Without(Pool(s.pools, model), id);
    forall m ensures NoDup(Pool(s'.pools, m)) {
      assert m != model ==> Pool(s'.pools, m) == Pool(s.pools, m);
    }
  }

  // ---------------------------------------------------------------- growing

  // A settled entry joins under a launcher nobody else holds and whose machine serves its model.
  lemma {:induction false} AddWarmKeeps(w: World, s: State, s': State, model: string, e: Entry)
    requires Inv(w, s) && s' == AddEntry(s, model, s.nextId, e).(nextId := s.nextId + 1)
    requires e.state != Assembling && e.launcherEndpoint != "" && model in MultiPipelineModelIds(w.catalog)
    requires forall m, id ::
              Live(s.pools, m, id) ==> !SharesLauncher(e, s.entries[id]) && !SharesLauncher(s.entries[id], e)
    requires OnlyRuns(MachineAt(s.machines, e.launcherEndpoint), model)
    ensures Inv(w, s')
  {
    Added(s, model, s.nextId, e);
    AddWarmKeepsFrames(w, s, s', model, e);
    AddWarmKeepsExclusive(w, s, s', model, e);
    AddWarmKeepsHosts(w, s, s', model, e);
  }

  ghost predicate Grows(s: State, s': State, model: string, e: Entry) {
    && s'.entries == s.entries[s.nextId := e] && s'.nextId == s.nextId + 1 && s'.replies == s.replies
    && (forall m, id :: Live(s'.pools, m, id) <==> Live(s.pools, m, id) || (m == model && id == s.nextId))
    && (forall m :: NoDup(Pool(s'.pools, m)))
  }

  lemma {:induction false} AddWarmKeepsFrames(w: World, s: State, s': State, model: string, e: Entry)
    requires PoolsOk(w, s) && FramesOk(w, s) && Grows(s, s', model, e)
    requires s'.coldStarts == s.coldStarts && s'.tick == s.tick
    requires e.state != Assembling && e.launcherEndpoint != "" && model in MultiPipelineModelIds(w.catalog)
    ensures PoolsOk(w, s') && FramesOk(w, s')
  {
    AddWarmKeepsPools(w, s, s', model, e);
    hide NoDup;
    forall m ensures ColdOk(s', m) {
      assert ColdOk(s, m);
    }
    forall m, id | Live(s'.pools, m, id) ensures Settled(s', id) || ColdAwaits(s', m, id) || TickAwaits(s', m, id) {
      if id != s.nextId {
        assert Live(s.pools, m, id);
      }
    }
  }

  lemma {:induction false} AddWarmKeepsPools(w: World, s: State, s': State, model: string, e: Entry)
    requires PoolsOk(w, s) && Grows(s, s', model, e)
    requires s'.coldStarts == s.coldStarts && s'.tick == s.tick
    requires e.state != Assembling && e.launcherEndpoint != "" && model in MultiPipelineModelIds(w.catalog)
    ensures PoolsOk(w, s') && s.nextId !in s.entries
  {
  }

  lemma {:induction false} AddWarmKeepsExclusive(w: World, s: State, s': State, model: string, e: Entry)
    requires PoolsOk(w, s) && Exclusive(s) && Refs(s') && Grows(s, s', model, e) && s'.coldStarts == s.coldStarts
    requires forall m, id ::
              Live(s.pools, m, id) ==> !SharesLauncher(e, s.entries[id]) && !SharesLauncher(s.entries[id], e)
    ensures Exclusive(s')
  {
    forall m1, a, m2, b | Live(s'.pools, m1, a) && Live(s'.pools, m2, b) ensures Apart(s', m1, a, m2, b) {
      assert a != s.nextId ==> Live(s.pools, m1, a);
      assert b != s.nextId ==> Live(s.pools, m2, b);
      assert a != s.nextId && b != s.nextId ==> Apart(s, m1, a, m2, b);
    }
  }

  lemma {:induction false} AddWarmKeepsHosts(w: World, s: State, s': State, model: string, e: Entry)
    requires PoolsOk(w, s) && HostsOk(s) && Grows(s, s', model, e) && s'.machines == s.machines
    requires forall x :: QueueOk(s, x)
    requires e.state != Assembling && OnlyRuns(MachineAt(s.machines, e.launcherEndpoint), model)
    ensures HostsOk(s')
    ensures forall x :: QueueOk(s', x)
  {
    forall m, id | Live(s'.pools, m, id) ensures HostOk(s', m, id) {
      if id != s.nextId {
        assert HostOk(s, m, id);
      }
    }
    forall x ensures QueueOk(s', x) {
      assert QueueOk(s, x);
    }
  }

  lemma {:induction false} Added(s: State, model: string, id: Uid, e: Entry)
    requires forall m :: NoDup(Pool(s.pools, m))
    requires forall m :: !Live(s.pools, m, id)
    ensures var s' := AddEntry(s, model, id, e);
            && (forall m :: NoDup(Pool(s'.pools, m)))
            && (forall m, x :: Live(s'.pools, m, x) <==> Live(s.pools, m, x) || (m == model && x == id))
            && (forall m :: m != model ==> Pool(s'.pools, m) == Pool(s.pools, m))
            && |Pool(s'.pools, model)| == |Pool(s.pools, model)| + 1
  {
    var s' := AddEntry(s, model, id, e);
    assert !Live(s.pools, model, id) && NoDup(Pool(s.pools, model));
    NoDupSnoc(Pool(s.pools, model), id);
    assert Pool(s'.pools, model) == Pool(s.pools, model) + [id];
    forall m ensures NoDup(Pool(s'.pools, m)) {
      assert m != model ==> Pool(s'.pools, m) == Pool(s.pools, m);
    }
  }

  // ---------------------------------------------------------------- reserving

  // A launcher not tallied as claimed backs no entry but the excluded one.
  lemma {:induction false} UnclaimedIsUnshared(w: World, s: State, exclude: Option<Uid>, l: LauncherInfo, m: string,
      id: Uid)
    requires PoolsOk(w, s) && Live(s.pools, m, id) && exclude != Some(id)
    requires !IsLauncherClaimed(ClaimedLauncherIds(w, s, exclude), l)
    ensures s.entries[id].launcherId != l.launcherId && s.entries[id].launcherEndpoint != l.endpoint
  {
    var e := s.entries[id];
    assert e.launcherId in EntryNames(e) && e.launcherEndpoint in EntryNames(e);
    assert e.launcherId in ClaimedLauncherIds(w, s, exclude);
    assert e.launcherEndpoint in ClaimedLauncherIds(w, s, exclude);
  }

  function Reservation(l: LauncherInfo, now: int): Entry {
    Entry("", [], l.launcherId, l.endpoint, Assembling, now)
  }

  // What a reservation does to tracker and network, whoever makes it.
  ghost predicate Reserves(s: State, s': State, model: string, l: LauncherInfo, now: int) {
    && Grows(s, s', model, Reservation(l, now))
    && s'.machines == Send(s, l.endpoint, Post(model, s.nextId)).machines
  }

  // Only the stale entry about to be replaced may share the launcher.
  ghost predicate FreeExcept(s: State, model: string, l: LauncherInfo, tracked: Option<Uid>) {
    forall m, id :: Live(s.pools, m, id) && id in s.entries
                    && (s.entries[id].launcherId == l.launcherId || s.entries[id].launcherEndpoint == l.endpoint)
      ==> m == model && tracked == Some(id) && Settled(s, id)
  }

  lemma {:induction false} ReserveKeeps(w: World, s: State, s': State, model: string, l: LauncherInfo, now: int,
      tracked: Option<Uid>)
    requires Inv(w, s) && Reserves(s, s', model, l, now) && Refs(s') && FramesOk(w, s')
    requires l.endpoint != "" && model in MultiPipelineModelIds(w.catalog) && FreeExcept(s, model, l, tracked)
    requires tracked.Some? ==> Replaces(s', model, s.nextId, tracked.value)
    requires forall m, r, t :: Replaces(s, m, r, t) ==> Replaces(s', m, r, t)
    ensures Inv(w, s')
  {
    ReserveKeepsPools(w, s, s', model, l, now);
    ReserveKeepsExclusive(w, s, s', model, l, now, tracked);
    ReserveKeepsHosts(w, s, s', model, l, now, tracked);
  }

  lemma {:induction false} ReserveKeepsPools(w: World, s: State, s': State, model: string, l: LauncherInfo, now: int)
    requires PoolsOk(w, s) && Reserves(s, s', model, l, now) && Refs(s')
    requires l.endpoint != "" && model in MultiPipelineModelIds(w.catalog)
    ensures PoolsOk(w, s')
  {
  }

  lemma {:induction false} ReserveKeepsExclusive(w: World, s: State, s': State, model: string, l: LauncherInfo,
      now: int, tracked: Option<Uid>)
    requires PoolsOk(w, s) && Exclusive(s) && Reserves(s, s', model, l, now) && FreeExcept(s, model, l, tracked)
    requires tracked.Some? ==> Replaces(s', model, s.nextId, tracked.value)
    requires forall m, r, t :: Replaces(s, m, r, t) ==> Replaces(s', m, r, t)
    ensures Exclusive(s')
  {
    assert s.nextId !in s.entries;
    forall m1, a, m2, b | Live(s'.pools, m1, a) && Live(s'.pools, m2, b) ensures Apart(s', m1, a, m2, b) {
      assert a != s.nextId ==> Live(s.pools, m1, a);
      assert b != s.nextId ==> Live(s.pools, m2, b);
      assert a != s.nextId && b != s.nextId ==> Apart(s, m1, a, m2, b);
    }
  }

  lemma {:induction false} ReserveKeepsHosts(w: World, s: State, s': State, model: string, l: LauncherInfo, now: int,
      tracked: Option<Uid>)
    requires PoolsOk(w, s) && HostsOk(s) && Reserves(s, s', model, l, now) && FreeExcept(s, model, l, tracked)
    requires forall x :: QueueOk(s, x)
    ensures HostsOk(s')
    ensures forall x :: QueueOk(s', x)
  {
    var n := s.nextId;
    assert n !in s.entries && n !in s.replies;
    var old_, new_ := MachineAt(s.machines, l.endpoint), MachineAt(s'.machines, l.endpoint);
    assert new_ == Machine(old_.queue + [Post(model, n)], old_.agent);
    assert QueueOk(s, l.endpoint);
    forall m, id | Live(s'.pools, m, id) ensures HostOk(s', m, id) {
      if id == n {
        assert LastPostIs(new_, model, n, false);
      } else {
        assert Live(s.pools, m, id) && HostOk(s, m, id);
        if s.entries[id].launcherEndpoint == l.endpoint {
          assert OnlyRuns(old_, model) && OnlyRuns(new_, model);
        }
      }
    }
    forall x ensures QueueOk(s', x) {
      assert QueueOk(s, x);
    }
  }

  // ---------------------------------------------------------------- the network

  // Stopping a launcher can only take its agent away.
  lemma {:induction false} DeleteKeeps(w: World, s: State, e: string)
    requires Inv(w, s)
    ensures Inv(w, Send(s, e, Delete))
  {
    var s' := Send(s, e, Delete);
    SameTrackerKeeps(w, s, s');
    forall m, id | Live(s'.pools, m, id) ensures HostOk(s', m, id) {
      assert Live(s.pools, m, id) && HostOk(s, m, id);
    }
    forall x ensures QueueOk(s', x) {
      assert QueueOk(s, x);
    }
  }

  // Changes that leave the tracker and the frames alone.
  lemma {:induction false} SameTrackerKeeps(w: World, s: State, s': State)
    requires PoolsOk(w, s) && FramesOk(w, s) && Exclusive(s)
    requires s'.pools == s.pools && s'.entries == s.entries && s'.coldStarts == s.coldStarts && s'.tick == s.tick
    requires s'.nextId == s.nextId && s.replies <= s'.replies && forall id :: id in s'.replies ==> id in s.entries
    ensures PoolsOk(w, s') && FramesOk(w, s') && Exclusive(s')
    ensures forall m, id :: Live(s'.pools, m, id) <==> Live(s.pools, m, id)
  {
    forall m ensures ColdOk(s', m) {
      assert ColdOk(s, m);
    }
    forall m1, a, m2, b | Live(s'.pools, m1, a) && Live(s'.pools, m2, b) ensures Apart(s', m1, a, m2, b) {
      assert Apart(s, m1, a, m2, b);
    }
  }

  // The agent may exit by itself, and a launcher that restarts forgets its queue.
  lemma {:induction false} FadeKeeps(w: World, s: State, e: string, q: seq<Command>)
    requires Inv(w, s) && (q == MachineAt(s.machines, e).queue || q == [])
    ensures Inv(w, s.(machines := s.machines[e := Machine(q, None)]))
  {
    var s' := s.(machines := s.machines[e := Machine(q, None)]);
    SameTrackerKeeps(w, s, s');
    forall m, id | Live(s'.pools, m, id) ensures HostOk(s', m, id) {
      assert Live(s.pools, m, id) && HostOk(s, m, id);
    }
    forall x ensures QueueOk(s', x) {
      assert QueueOk(s, x);
    }
  }

  lemma {:induction false} HandleKeeps(w: World, s: State, e: string, outcome: Outcome)
    requires Inv(w, s) && Possible(w, s, LauncherHandles(e, outcome))
    ensures Inv(w, Apply(w, s, LauncherHandles(e, outcome)))
  {
    hide ColdBegin, ColdSettle, TickCommit, TickSettle, TickTornDown, TickCheck, ForwardFailed, IsPlan;
    hide FramesOk, Exclusive;
    var s' := Apply(w, s, LauncherHandles(e, outcome));
    var old_, new_ := MachineAt(s.machines, e), MachineAt(s'.machines, e);
    var head := old_.queue[0];
    assert QueueOk(s, e);
    assert head in old_.queue;
    assert forall c :: c in new_.queue ==> c in old_.queue;
    SameTrackerKeeps(w, s, s');
    forall m, id | Live(s'.pools, m, id) ensures HostOk(s', m, id) {
      assert Live(s.pools, m, id) && HostOk(s, m, id);
      if s.entries[id].launcherEndpoint == e {
        HandleKeepsHost(s, s', e, outcome, m, id);
      }
    }
    forall x ensures QueueOk(s', x) {
      assert QueueOk(s, x);
    }
  }

  lemma {:induction false} HandleKeepsHost(s: State, s': State, e: string, outcome: Outcome, m: string, id: Uid)
    requires MachineAt(s.machines, e).queue != [] && QueueOk(s, e) && HostOk(s, m, id)
        && s.entries[id].launcherEndpoint == e
    requires s'.entries == s.entries && s'.machines == s.machines[e := Handle(MachineAt(s.machines, e), outcome)]
    requires var head := MachineAt(s.machines, e).queue[0];
             s'.replies == s.replies + if head.Post? && outcome == Started then {head.tag} else {}
    ensures HostOk(s', m, id)
  {
    var old_, new_ := MachineAt(s.machines, e), MachineAt(s'.machines, e);
    var head := old_.queue[0];
    assert head in old_.queue && forall c :: c in new_.queue ==> c in old_.queue;
    if s.entries[id].state == Assembling && head.Post? && head.tag == id {
      // Everything behind this POST that is itself a POST would carry a later reservation.
      forall c | c in new_.queue ensures c.Delete? {
        var k :| 0 <= k < |new_.queue| && new_.queue[k] == c;
        assert old_.queue[k + 1] == c;
      }
    }
  }
}
