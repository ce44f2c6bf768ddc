// coordinator/src/registry.ts: which nodes are there. A node's id is a digest of its endpoint, here an arbitrary
// function.
module NodeRegistry {
  import opened Options
  import opened Expiry

  datatype DeviceTier = Desktop | Android | Ios

  datatype NodeInfo = NodeInfo(
    nodeId: string, endpoint: string, deviceTier: DeviceTier, localityGroup: Option<string>,
    servesModel: Option<string>, availableMemoryMb: Option<int>)

  // ---------------------------------------------------------------- the never-pruning map

  datatype Event =
    | Register(info: NodeInfo, at: int)
    | Heartbeat(nodeId: string, at: int)
    | List(trusted: set<string>, at: int)

  datatype Answer = Registered(nodeId: string) | Alive(alive: bool) | Active(nodes: set<NodeInfo>)

  function Beat(full: map<string, Stored<NodeInfo>>, nodeId: string, now: int,
      timeoutMs: int): map<string, Stored<NodeInfo>> {
    if nodeId in full && Live(full[nodeId], now, timeoutMs)
    then full[nodeId := full[nodeId].(lastSeen := now)] else full
  }

  function Apply(full: map<string, Stored<NodeInfo>>, e: Event, timeoutMs: int): map<string, Stored<NodeInfo>> {
    match e
    case Register(info, at) => full[info.nodeId := Stored(info, at)]
    case Heartbeat(nodeId, at) => Beat(full, nodeId, at, timeoutMs)
    case List(_, _) => full
  }

  function ActiveNodes(full: map<string, Stored<NodeInfo>>, trusted: set<string>, now: int,
      timeoutMs: int): set<NodeInfo> {
    set id | id in full && Live(full[id], now, timeoutMs) && id in trusted :: full[id].info
  }

  function AnswerTo(full: map<string, Stored<NodeInfo>>, e: Event, timeoutMs: int): Answer {
    match e
    case Register(info, _) => Registered(info.nodeId)
    case Heartbeat(nodeId, at) => Alive(nodeId in full && Live(full[nodeId], at, timeoutMs))
    case List(trusted, at) => Active(ActiveNodes(full, trusted, at, timeoutMs))
  }

  lemma {:induction false} ListedAreActive(
      full: map<string, Stored<NodeInfo>>, trusted: set<string>, now: int, timeoutMs: int, active: seq<NodeInfo>,
      ids: seq<string>)
    requires forall id :: id in ids <==> id in full && Live(full[id], now, timeoutMs) && id in trusted
    requires |active| == |ids| && forall k :: 0 <= k < |ids| ==> active[k] == full[ids[k]].info
    ensures (set n | n in active) == ActiveNodes(full, trusted, now, timeoutMs)
  {
  }

  // ---------------------------------------------------------------- the registry

  class NodeRegistry {
    const timeoutMs: int
    var nodes: map<string, Stored<NodeInfo>>
    ghost var full: map<string, Stored<NodeInfo>>
    ghost var latest: int

    ghost predicate Valid()
      reads this
    {
      Prunes(nodes, full, latest, timeoutMs) && forall id :: id in nodes ==> nodes[id].info.nodeId == id
    }

    constructor (timeoutMs: int, ghost start: int)
      ensures Valid() && full == map[] && latest == start && this.timeoutMs == timeoutMs
    {
      this.timeoutMs := timeoutMs;
      nodes := map[];
      full, latest := map[], start;
    }

    method Register(info: NodeInfo, now: int)
      requires Valid() && latest <= now
      modifies this
      ensures Valid() && full == Apply(old(full), Event.Register(info, now), timeoutMs) && latest == now
    {
      nodes := nodes[info.nodeId := Stored(info, now)];
      full, latest := full[info.nodeId := Stored(info, now)], now;
    }

    method Heartbeat(nodeId: string, now: int) returns (alive: bool)
      requires Valid() && latest <= now
      modifies this
      ensures Valid() && full == Apply(old(full), Event.Heartbeat(nodeId, now), timeoutMs) && latest == now
      ensures Alive(alive) == AnswerTo(old(full), Event.Heartbeat(nodeId, now), timeoutMs)
    {
      full, latest := Beat(full, nodeId, now, timeoutMs), now;
      if nodeId !in nodes {
        return false;
      }
      if now - nodes[nodeId].lastSeen > timeoutMs {
        nodes := nodes - {nodeId};
        return false;
      }
      nodes := nodes[nodeId := nodes[nodeId].(lastSeen := now)];
      return true;
    }

    method ListActive(trusted: set<string>, now: int) returns (active: seq<NodeInfo>)
      requires Valid() && latest <= now
      modifies this
      ensures Valid() && full == old(full) && latest == now
      ensures nodes == LiveEntries(full, now, timeoutMs)
      ensures Active(set n | n in active) == AnswerTo(full, Event.List(trusted, now), timeoutMs)
      ensures forall i, j :: 0 <= i < j < |active| ==> active[i].nodeId != active[j].nodeId
    {
      SameLiveEntries(nodes, full, now, timeoutMs);
      ghost var ids: seq<string>;
      nodes, active, ids := Sweep(nodes, now, timeoutMs, id => id in trusted);
      latest := now;
      ListedAreActive(full, trusted, now, timeoutMs, active, ids);
    }
  }

  // ---------------------------------------------------------------- whole runs

  function ApplyAll(full: map<string, Stored<NodeInfo>>, run: seq<Event>,
      timeoutMs: int): map<string, Stored<NodeInfo>> {
    if run == [] then full else Apply(ApplyAll(full, run[..|run| - 1], timeoutMs), run[|run| - 1], timeoutMs)
  }

  function Answers(run: seq<Event>, timeoutMs: int): seq<Answer> {
    if run == [] then []
    else
      var before := run[..|run| - 1];
      Answers(before, timeoutMs) + [AnswerTo(ApplyAll(map[], before, timeoutMs), run[|run| - 1], timeoutMs)]
  }

  predicate InOrder(run: seq<Event>) {
    forall i, j :: 0 <= i < j < |run| ==> run[i].at <= run[j].at
  }

  // Pruning is unobservable: a registry answers every run as the map that never prunes does, wherever the listings
  // and heartbeats that prune happen to fall.
  method Replay(run: seq<Event>, timeoutMs: int) returns (answers: seq<Answer>)
    requires InOrder(run)
    ensures answers == Answers(run, timeoutMs)
  {
    answers := [];
    if run == [] {
      return;
    }
    var r := new NodeRegistry(timeoutMs, run[0].at);
    for i := 0 to |run|
      invariant fresh(r) && r.timeoutMs == timeoutMs && r.Valid()
      invariant r.full == ApplyAll(map[], run[..i], timeoutMs) && answers == Answers(run[..i], timeoutMs)
      invariant i < |run| ==> r.latest <= run[i].at
    {
      assert run[..i + 1][..i] == run[..i];
      match run[i] {
        case Register(info, at) =>
          r.Register(info, at);
          answers := answers + [Registered(info.nodeId)];
        case Heartbeat(nodeId, at) =>
          var alive := r.Heartbeat(nodeId, at);
          answers := answers + [Alive(alive)];
        case List(trusted, at) =>
          var active := r.ListActive(trusted, at);
          answers := answers + [Active(set n | n in active)];
      }
    }
    assert run[..|run|] == run;
  }

  // Only a registration brings an expired node back: heartbeats and listings, however many, leave it expired.
  lemma {:induction false} ExpiredStaysExpired(
      full: map<string, Stored<NodeInfo>>, run: seq<Event>, timeoutMs: int, nodeId: string, since: int)
    requires nodeId in full && !Live(full[nodeId], since, timeoutMs)
    requires InOrder(run) && forall i :: 0 <= i < |run| ==> since <= run[i].at
    requires forall i :: 0 <= i < |run| ==> !(run[i].Register? && run[i].info.nodeId == nodeId)
    ensures var after := ApplyAll(full, run, timeoutMs); nodeId in after && after[nodeId] == full[nodeId]
  {
    if run != [] {
      var n := |run| - 1;
      ExpiredStaysExpired(full, run[..n], timeoutMs, nodeId, since);
      assert since <= run[n].at && !(run[n].Register? && run[n].info.nodeId == nodeId);
    }
  }
}
