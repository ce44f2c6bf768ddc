// Why a pre-warmed driver stays registered although nothing but the background tick ever pings it
// (coordinator/src/pipeline_pool_manager.ts with coordinator/src/registry.ts).
module PrewarmedDrivers {
  import opened Expiry
  import opened NodeRegistry
  import opened Options
  import PoolProtocol

  type Nodes = map<string, Stored<NodeInfo>>

  // What happens to the node registry: anything a node or a request does, or a tick. A tick pings the driver of
  // every pooled entry that is no mere reservation, then lists the active nodes.
  datatype Happening =
    | Elsewhere(event: Event)
    | Tick(pool: seq<PoolProtocol.Entry>, trusted: set<string>, at: int)

  function PrePass(nodes: Nodes, pool: seq<PoolProtocol.Entry>, at: int, timeoutMs: int): Nodes {
    if pool == [] then nodes
    else
      PrePass(if pool[0].state == PoolProtocol.Assembling then nodes
          else Beat(nodes, pool[0].driverNodeId, at, timeoutMs),
              pool[1..], at, timeoutMs)
  }

  function Happen(nodes: Nodes, h: Happening, timeoutMs: int): Nodes {
    match h
    case Elsewhere(event) => Apply(nodes, event, timeoutMs)
    case Tick(pool, _, at) => PrePass(nodes, pool, at, timeoutMs)
  }

  // The node ids of the tick's snapshot, taken behind its pre-pass.
  function Snapshot(nodes: Nodes, trusted: set<string>, now: int, timeoutMs: int): set<string> {
    set id | id in nodes && Live(nodes[id], now, timeoutMs) && id in trusted
  }

  predicate Backs(driver: string, e: PoolProtocol.Entry) {
    e.driverNodeId == driver && e.state != PoolProtocol.Assembling
  }

  // Time never runs backwards, and from `since` on every tick finds the driver in the pool and comes at most
  // timeoutMs after the one before.
  ghost predicate Tended(hs: seq<Happening>, driver: string, since: int, timeoutMs: int) {
    if hs == [] then true
    else match hs[0]
         case Elsewhere(event) => since <= event.at && Tended(hs[1..], driver, since, timeoutMs)
         case Tick(pool, _, at) =>
           && since <= at <= since + timeoutMs
           && (exists i :: 0 <= i < |pool| && Backs(driver, pool[i]))
           && Tended(hs[1..], driver, at, timeoutMs)
  }

  ghost predicate JudgedAlive(driver: string, active: set<string>) {
    && driver in active
    && forall e, now, idleGraceMs ::
         Backs(driver, e) && (forall n :: n in e.computeNodeIds ==> n in active)
         ==> PoolProtocol.Judge(e, active, now, idleGraceMs)
             in {PoolProtocol.Keep, PoolProtocol.Broken, PoolProtocol.IdleTooLong}
  }

  // No tick of the run judges an entry of the driver inactive, unless a contributor is missing from the tick's
  // snapshot or the driver is not trusted.
  ghost predicate NeverInactive(hs: seq<Happening>, nodes: Nodes, driver: string, timeoutMs: int) {
    if hs == [] then true
    else
      var after := Happen(nodes, hs[0], timeoutMs);
      && (hs[0].Tick? ==>
            driver in hs[0].trusted ==> JudgedAlive(driver, Snapshot(after, hs[0].trusted, hs[0].at, timeoutMs)))
      && NeverInactive(hs[1..], after, driver, timeoutMs)
  }

  // Seen at `since` or later.
  predicate SeenSince(nodes: Nodes, driver: string, since: int) {
    driver in nodes && nodes[driver].lastSeen >= since
  }

  lemma {:induction false} PrePassKeepsSeen(nodes: Nodes, pool: seq<PoolProtocol.Entry>, at: int, timeoutMs: int,
      driver: string, since: int)
    requires SeenSince(nodes, driver, since) && since <= at
    ensures SeenSince(PrePass(nodes, pool, at, timeoutMs), driver, since)
    decreases |pool|
  {
    if pool != [] {
      var next := if pool[0].state == PoolProtocol.Assembling then nodes
          else Beat(nodes, pool[0].driverNodeId, at, timeoutMs);
      PrePassKeepsSeen(next, pool[1..], at, timeoutMs, driver, since);
    }
  }

  lemma {:induction false} PrePassPings(nodes: Nodes, pool: seq<PoolProtocol.Entry>, at: int, timeoutMs: int,
      driver: string, since: int, i: nat)
    requires SeenSince(nodes, driver, since) && since <= at <= since + timeoutMs
    requires i < |pool| && Backs(driver, pool[i])
    ensures SeenSince(PrePass(nodes, pool, at, timeoutMs), driver, at)
    decreases |pool|
  {
    var next := if pool[0].state == PoolProtocol.Assembling then nodes
        else Beat(nodes, pool[0].driverNodeId, at, timeoutMs);
    if i == 0 {
      PrePassKeepsSeen(next, pool[1..], at, timeoutMs, driver, at);
    } else {
      PrePassPings(next, pool[1..], at, timeoutMs, driver, since, i - 1);
    }
  }

  // A driver seen at `since` and tended from then on is never torn down for inactivity, in any number of ticks: only
  // for a failed forward or for idleness.
  lemma {:induction false} TendedDriversSurvive(hs: seq<Happening>, nodes: Nodes, driver: string, since: int,
      timeoutMs: int)
    requires timeoutMs >= 0
    requires SeenSince(nodes, driver, since) && Tended(hs, driver, since, timeoutMs)
    ensures NeverInactive(hs, nodes, driver, timeoutMs)
    decreases |hs|
  {
    if hs != [] {
      match hs[0] {
        case Elsewhere(event) =>
          TendedDriversSurvive(hs[1..], Apply(nodes, event, timeoutMs), driver, since, timeoutMs);
        case Tick(pool, trusted, at) =>
          var i :| 0 <= i < |pool| && Backs(driver, pool[i]);
          PrePassPings(nodes, pool, at, timeoutMs, driver, since, i);
          var after := PrePass(nodes, pool, at, timeoutMs);
          TendedDriversSurvive(hs[1..], after, driver, at, timeoutMs);
      }
    }
  }

  predicate Expired(nodes: Nodes, driver: string, at: int, timeoutMs: int) {
    driver in nodes ==> !Live(nodes[driver], at, timeoutMs)
  }

  lemma {:induction false} PrePassRevivesNobody(nodes: Nodes, pool: seq<PoolProtocol.Entry>, at: int, timeoutMs: int,
      driver: string)
    requires Expired(nodes, driver, at, timeoutMs)
    ensures Expired(PrePass(nodes, pool, at, timeoutMs), driver, at, timeoutMs)
    decreases |pool|
  {
    if pool != [] {
      var next := if pool[0].state == PoolProtocol.Assembling then nodes
          else Beat(nodes, pool[0].driverNodeId, at, timeoutMs);
      PrePassRevivesNobody(next, pool[1..], at, timeoutMs, driver);
    }
  }

  // One gap longer than the timeout is too long: no pre-pass, of whatever pool, revives the driver, and the tick
  // judges every entry of it inactive.
  lemma {:induction false} LateTickKills(
      nodes: Nodes, pool: seq<PoolProtocol.Entry>, driver: string, trusted: set<string>, at: int, timeoutMs: int)
    requires Expired(nodes, driver, at, timeoutMs)
    ensures var active := Snapshot(PrePass(nodes, pool, at, timeoutMs), trusted, at, timeoutMs);
            forall e, now, idleGraceMs :: Backs(driver, e)
                ==> PoolProtocol.Judge(e, active, now, idleGraceMs) == PoolProtocol.Inactive
  {
    PrePassRevivesNobody(nodes, pool, at, timeoutMs, driver);
  }

  // ---------------------------------------------------------------- exactly when

  // One tick: a trusted driver that stands in the pool is judged alive if and only if it was live when the tick came.
  lemma {:induction false} AliveIffLive(
      nodes: Nodes, pool: seq<PoolProtocol.Entry>, i: nat, driver: string, trusted: set<string>, at: int,
      timeoutMs: nat)
    requires i < |pool| && Backs(driver, pool[i]) && driver in trusted
    ensures JudgedAlive(driver, Snapshot(PrePass(nodes, pool, at, timeoutMs), trusted, at, timeoutMs))
       <==> driver in nodes && Live(nodes[driver], at, timeoutMs)
  {
    if driver in nodes && Live(nodes[driver], at, timeoutMs) {
      PrePassPings(nodes, pool, at, timeoutMs, driver,
          if nodes[driver].lastSeen <= at then nodes[driver].lastSeen else at, i);
    } else {
      PrePassRevivesNobody(nodes, pool, at, timeoutMs, driver);
    }
  }

  // Every tick finds the driver in the pool and trusts it.
  ghost predicate PooledAndTrusted(hs: seq<Happening>, driver: string) {
    forall k :: 0 <= k < |hs| && hs[k].Tick?
        ==> driver in hs[k].trusted && exists i :: 0 <= i < |hs[k].pool| && Backs(driver, hs[k].pool[i])
  }

  // Every tick comes while the driver's last sign of life is at most the timeout old.
  predicate InTime(hs: seq<Happening>, nodes: Nodes, driver: string, timeoutMs: nat) {
    hs == []
    || ((hs[0].Tick? ==> driver in nodes && Live(nodes[driver], hs[0].at, timeoutMs))
        && InTime(hs[1..], Happen(nodes, hs[0], timeoutMs), driver, timeoutMs))
  }

  // Whole runs: the driver is never judged inactive if and only if every tick comes in time.
  lemma {:induction false} SurvivesIffInTime(hs: seq<Happening>, nodes: Nodes, driver: string, timeoutMs: nat)
    requires PooledAndTrusted(hs, driver)
    ensures NeverInactive(hs, nodes, driver, timeoutMs) <==> InTime(hs, nodes, driver, timeoutMs)
    decreases |hs|
  {
    hide JudgedAlive, Snapshot, PrePass, Live;
    if hs != [] {
      var rest := hs[1..];
      assert forall k :: 0 <= k < |rest| ==> rest[k] == hs[k + 1];
      SurvivesIffInTime(rest, Happen(nodes, hs[0], timeoutMs), driver, timeoutMs);
      if hs[0].Tick? {
        var i :| 0 <= i < |hs[0].pool| && Backs(driver, hs[0].pool[i]);
        AliveIffLive(nodes, hs[0].pool, i, driver, hs[0].trusted, hs[0].at, timeoutMs);
      }
    }
  }

  const DRIVER: string := "driver"
  const POOLED: PoolProtocol.Entry :=
    PoolProtocol.Entry(DRIVER, [], "launcher", "http://launcher", PoolProtocol.Warm, 0)
  const SEEN: Nodes := map[DRIVER := Stored(NodeInfo(DRIVER, "http://driver", Desktop, None, None, None), 0)]

  // Two ticks one millisecond further apart than the timeout: the first keeps a healthy pipeline, the second condemns
  // it, although both ping its driver before they look.
  lemma {:induction false} OneLateTick(timeoutMs: nat)
    ensures var first, second := Tick([POOLED], {DRIVER}, 0), Tick([POOLED], {DRIVER}, timeoutMs + 1);
            && NeverInactive([first], SEEN, DRIVER, timeoutMs)
            && !NeverInactive([first, second], SEEN, DRIVER, timeoutMs)
  {
    var first, second := Tick([POOLED], {DRIVER}, 0), Tick([POOLED], {DRIVER}, timeoutMs + 1);
    assert Backs(DRIVER, [POOLED][0]);
    assert [POOLED][1..] == [] && [first][1..] == [] && [first, second][1..] == [second];
    assert Happen(SEEN, first, timeoutMs) == PrePass(Beat(SEEN, DRIVER, 0, timeoutMs), [], 0, timeoutMs) == SEEN;
    SurvivesIffInTime([first], SEEN, DRIVER, timeoutMs);
    SurvivesIffInTime([first, second], SEEN, DRIVER, timeoutMs);
  }
}
