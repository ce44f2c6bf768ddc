// coordinator/src/launcher_registry.ts: which launchers are there. A launcher that registers again while it is
// known keeps its id; after it expired it gets a new one. Random ids are a supply of unused names.
module LauncherRegistry {
  import opened Expiry
  import opened Launchers
  import opened Options

  type Entries = map<string, Stored<LauncherInfo>>

  datatype Event =
    | Register(endpoint: string, servesModels: seq<string>, agentPort: int, uuid: string, at: int)
    | Heartbeat(launcherId: string, at: int)
    | List(at: int)

  datatype Answer = Registered(launcherId: string) | Alive(alive: bool) | Active(launchers: set<LauncherInfo>)

  // ---------------------------------------------------------------- the never-pruning map

  predicate Holds(s: Stored<LauncherInfo>, endpoint: string, now: int, timeoutMs: int) {
    Live(s, now, timeoutMs) && s.info.endpoint == endpoint
  }

  // The id under which the endpoint is known now, or else the new one.
  ghost function IdFor(full: Entries, endpoint: string, uuid: string, now: int, timeoutMs: int): (id: string)
    ensures (exists x :: x in full && Holds(full[x], endpoint, now, timeoutMs))
        ==> id in full && Holds(full[id], endpoint, now, timeoutMs)
    ensures (forall x :: x in full ==> !Holds(full[x], endpoint, now, timeoutMs)) ==> id == uuid
  {
    if exists x :: x in full && Holds(full[x], endpoint, now, timeoutMs)
    then var x :| x in full && Holds(full[x], endpoint, now, timeoutMs); x
    else uuid
  }

  ghost function Apply(full: Entries, e: Event, timeoutMs: int): Entries {
    match e
    case Register(endpoint, servesModels, agentPort, uuid, at) =>
      var id := IdFor(full, endpoint, uuid, at, timeoutMs);
      full[id := Stored(LauncherInfo(id, endpoint, servesModels, agentPort), at)]
    case Heartbeat(id, at) =>
      if id in full && Live(full[id], at, timeoutMs) then full[id := full[id].(lastSeen := at)] else full
    case List(_) => full
  }

  ghost function ActiveLaunchers(full: Entries, now: int, timeoutMs: int): set<LauncherInfo> {
    set id | id in full && Live(full[id], now, timeoutMs) :: full[id].info
  }

  ghost function AnswerTo(full: Entries, e: Event, timeoutMs: int): Answer {
    match e
    case Register(endpoint, _, _, uuid, at) => Registered(IdFor(full, endpoint, uuid, at, timeoutMs))
    case Heartbeat(id, at) => Alive(id in full && Live(full[id], at, timeoutMs))
    case List(at) => Active(ActiveLaunchers(full, at, timeoutMs))
  }

  // ---------------------------------------------------------------- the registry

  // No two entries share an endpoint, and every entry carries its own id.
  ghost predicate OnePerEndpoint(entries: Entries) {
    && (forall a, b :: a in entries && b in entries && entries[a].info.endpoint == entries[b].info.endpoint ==> a == b)
    && (forall a :: a in entries ==> entries[a].info.launcherId == a)
  }

  ghost predicate Agrees(launchers: Entries, full: Entries, now: int, timeoutMs: int) {
    Prunes(launchers, full, now, timeoutMs) && OnePerEndpoint(launchers)
  }

  lemma {:induction false} FewerAgree(launchers: Entries, full: Entries, now: int, timeoutMs: int, id: string)
    requires Agrees(launchers, full, now, timeoutMs) && id in launchers && !Live(launchers[id], now, timeoutMs)
    ensures Agrees(launchers - {id}, full, now, timeoutMs)
  {
  }

  // The live entry of an endpoint is the only one.
  lemma {:induction false} IdIsFound(
      launchers: Entries, full: Entries, endpoint: string, uuid: string, now: int, timeoutMs: int,
      found: Option<string>)
    requires Agrees(launchers, full, now, timeoutMs)
    requires match found
             case Some(id) => id in launchers && Holds(launchers[id], endpoint, now, timeoutMs)
             case None => forall id :: id in launchers ==> launchers[id].info.endpoint != endpoint
    ensures IdFor(full, endpoint, uuid, now, timeoutMs) == match found case Some(id) => id case None => uuid
  {
  }

  lemma {:induction false} PutAgrees(
      launchers: Entries, full: Entries, endpoint: string, now: int, timeoutMs: int, id: string,
      servesModels: seq<string>, agentPort: int)
    requires Agrees(launchers, full, now, timeoutMs)
    requires if id in launchers then launchers[id].info.endpoint == endpoint
             else id !in full && forall x :: x in launchers ==> launchers[x].info.endpoint != endpoint
    ensures var stored := Stored(LauncherInfo(id, endpoint, servesModels, agentPort), now);
            Agrees(launchers[id := stored], full[id := stored], now, timeoutMs)
  {
  }

  lemma {:induction false} BeatAgrees(launchers: Entries, full: Entries, latest: int, now: int, timeoutMs: int,
      id: string)
    requires Agrees(launchers, full, latest, timeoutMs) && latest <= now
    ensures id in launchers ==>
              var beaten := launchers[id].(lastSeen := now);
              && OnePerEndpoint(launchers - {id}) && OnePerEndpoint(launchers[id := beaten])
              && Prunes(launchers[id := beaten], full[id := beaten], now, timeoutMs)
    ensures OnePerEndpoint(launchers) && Prunes(launchers, full, now, timeoutMs)
  {
  }

  class LauncherRegistry {
    const timeoutMs: int
    var launchers: Entries
    ghost var full: Entries
    ghost var latest: int

    ghost predicate Valid()
      reads this
    {
      Agrees(launchers, full, latest, timeoutMs)
    }

    constructor (timeoutMs: int, ghost start: int)
      ensures Valid() && full == map[] && latest == start && this.timeoutMs == timeoutMs
    {
      this.timeoutMs := timeoutMs;
      launchers := map[];
      full, latest := map[], start;
    }

    // Looks for the entry of an endpoint, and drops the expired entries it comes across.
    method FindHolder(endpoint: string, now: int) returns (found: Option<string>)
      requires Valid() && latest == now
      modifies this`launchers
      ensures Valid()
      ensures match found
              case Some(id) => id in launchers && Holds(launchers[id], endpoint, now, timeoutMs)
              case None => forall id :: id in launchers ==> launchers[id].info.endpoint != endpoint
    {
      hide OnePerEndpoint;
      var todo := launchers.Keys;
      while todo != {}
        invariant todo <= launchers.Keys
        invariant Valid()
        invariant forall id :: id in launchers && id !in todo ==> launchers[id].info.endpoint != endpoint
        decreases |todo|
      {
        var id :| id in todo;
        todo := todo - {id};
        if now - launchers[id].lastSeen > timeoutMs {
          FewerAgree(launchers, full, now, timeoutMs, id);
          launchers := launchers - {id};
        } else if launchers[id].info.endpoint == endpoint {
          return Some(id);
        }
      }
      return None;
    }

    method Register(endpoint: string, servesModels: seq<string>, agentPort: int, uuid: string, now: int)
      returns (launcherId: string)
      requires Valid() && latest <= now && uuid !in full
      modifies this
      ensures Valid() && latest == now
      ensures full == Apply(old(full), Event.Register(endpoint, servesModels, agentPort, uuid, now), timeoutMs)
      ensures Registered(launcherId) == AnswerTo(
          old(full), Event.Register(endpoint, servesModels, agentPort, uuid, now), timeoutMs)
    {
      hide OnePerEndpoint;
      latest := now;
      var found := FindHolder(endpoint, now);
      launcherId := match found case Some(id) => id case None => uuid;
      IdIsFound(launchers, full, endpoint, uuid, now, timeoutMs, found);
      PutAgrees(launchers, full, endpoint, now, timeoutMs, launcherId, servesModels, agentPort);
      var stored := Stored(LauncherInfo(launcherId, endpoint, servesModels, agentPort), now);
      launchers := launchers[launcherId := stored];
      full := full[launcherId := stored];
    }

    method Heartbeat(launcherId: string, now: int) returns (alive: bool)
      requires Valid() && latest <= now
      modifies this
      ensures Valid() && full == Apply(old(full), Event.Heartbeat(launcherId, now), timeoutMs) && latest == now
      ensures Alive(alive) == AnswerTo(old(full), Event.Heartbeat(launcherId, now), timeoutMs)
    {
      hide OnePerEndpoint;
      BeatAgrees(launchers, full, latest, now, timeoutMs, launcherId);
      full, latest := Apply(full, Event.Heartbeat(launcherId, now), timeoutMs), now;
      if launcherId !in launchers {
        return false;
      }
      if now - launchers[launcherId].lastSeen > timeoutMs {
        launchers := launchers - {launcherId};
        return false;
      }
      launchers := launchers[launcherId := launchers[launcherId].(lastSeen := now)];
      return true;
    }

    method ListActive(now: int) returns (active: seq<LauncherInfo>)
      requires Valid() && latest <= now
      modifies this
      ensures Valid() && full == old(full) && latest == now && launchers == LiveEntries(full, now, timeoutMs)
      ensures Active(set l | l in active) == AnswerTo(full, Event.List(now), timeoutMs)
      ensures Apart(active)
    {
      SameLiveEntries(launchers, full, now, timeoutMs);
      ghost var ids: seq<string>;
      launchers, active, ids := Sweep(launchers, now, timeoutMs, _ => true);
      latest := now;
      ListedAreActive(full, now, timeoutMs, active, ids);
    }

    // The active launchers that serve a model.
    method ListForModel(modelId: string, now: int) returns (serving: seq<LauncherInfo>)
      requires Valid() && latest <= now
      modifies this
      ensures Valid() && full == old(full) && latest == now
      ensures forall l :: l in serving <==> l in ActiveLaunchers(full, now, timeoutMs) && modelId in l.servesModels
      ensures Apart(serving)
    {
      var active := ListActive(now);
      serving := [];
      for i := 0 to |active|
        invariant forall l :: l in serving <==> l in active[..i] && modelId in l.servesModels
        invariant Apart(serving)
      {
        if modelId in active[i].servesModels {
          forall l | l in serving ensures l.endpoint != active[i].endpoint && l.launcherId != active[i].launcherId {
            var k :| 0 <= k < i && active[k] == l;
          }
          serving := serving + [active[i]];
        }
      }
      assert active[..|active|] == active;
      assert forall l :: l in active <==> l in (set a | a in active);
    }
  }

  // No two launchers of the list share an endpoint or an id.
  predicate Apart(s: seq<LauncherInfo>) {
    forall i, j :: 0 <= i < j < |s| ==> s[i].endpoint != s[j].endpoint && s[i].launcherId != s[j].launcherId
  }

  lemma {:induction false} ListedAreActive(
      full: Entries, now: int, timeoutMs: int, active: seq<LauncherInfo>, ids: seq<string>)
    requires forall id :: id in ids <==> id in full && Live(full[id], now, timeoutMs)
    requires |active| == |ids| && forall k :: 0 <= k < |ids| ==> active[k] == full[ids[k]].info
    ensures (set l | l in active) == ActiveLaunchers(full, now, timeoutMs)
  {
  }

  // ---------------------------------------------------------------- whole runs

  ghost function ApplyAll(full: Entries, run: seq<Event>, timeoutMs: int): Entries {
    if run == [] then full else Apply(ApplyAll(full, run[..|run| - 1], timeoutMs), run[|run| - 1], timeoutMs)
  }

  ghost function Answers(run: seq<Event>, timeoutMs: int): seq<Answer> {
    if run == [] then []
    else
      var before := run[..|run| - 1];
      Answers(before, timeoutMs) + [AnswerTo(ApplyAll(map[], before, timeoutMs), run[|run| - 1], timeoutMs)]
  }

  predicate InOrder(run: seq<Event>) {
    forall i, j :: 0 <= i < j < |run| ==> run[i].at <= run[j].at
  }

  predicate FreshIds(run: seq<Event>) {
    forall i, j :: 0 <= i < j < |run| && run[i].Register? && run[j].Register? ==> run[i].uuid != run[j].uuid
  }

  lemma {:induction false} IdsAreIssued(run: seq<Event>, timeoutMs: int)
    ensures forall id :: id in ApplyAll(map[], run, timeoutMs) ==>
              exists i :: 0 <= i < |run| && run[i].Register? && run[i].uuid == id
  {
    if run != [] {
      var n := |run| - 1;
      IdsAreIssued(run[..n], timeoutMs);
      forall id | id in ApplyAll(map[], run, timeoutMs)
        ensures exists i :: 0 <= i < |run| && run[i].Register? && run[i].uuid == id
      {
        if id in ApplyAll(map[], run[..n], timeoutMs) {
          var i :| 0 <= i < n && run[..n][i].Register? && run[..n][i].uuid == id;
          assert run[i] == run[..n][i];
        } else {
          assert run[n].Register? && run[n].uuid == id;
        }
      }
    }
  }

  // Pruning is unobservable: a registry answers every run as the map that never prunes does.
  method Replay(run: seq<Event>, timeoutMs: int) returns (answers: seq<Answer>)
    requires InOrder(run) && FreshIds(run)
    ensures answers == Answers(run, timeoutMs)
  {
    answers := [];
    if run == [] {
      return;
    }
    var r := new LauncherRegistry(timeoutMs, run[0].at);
    for i := 0 to |run|
      invariant fresh(r) && r.timeoutMs == timeoutMs && r.Valid()
      invariant r.full == ApplyAll(map[], run[..i], timeoutMs) && answers == Answers(run[..i], timeoutMs)
      invariant i < |run| ==> r.latest <= run[i].at
    {
      assert run[..i + 1][..i] == run[..i];
      match run[i] {
        case Register(endpoint, servesModels, agentPort, uuid, at) =>
          IdsAreIssued(run[..i], timeoutMs);
          var id := r.Register(endpoint, servesModels, agentPort, uuid, at);
          answers := answers + [Registered(id)];
        case Heartbeat(launcherId, at) =>
          var alive := r.Heartbeat(launcherId, at);
          answers := answers + [Alive(alive)];
        case List(at) =>
          var active := r.ListActive(at);
          answers := answers + [Active(set l | l in active)];
      }
    }
    assert run[..|run|] == run;
  }

  // An expired launcher id never comes back: registering again brings a new id, and heartbeats bring nothing.
  lemma {:induction false} ExpiredStaysExpired(full: Entries, run: seq<Event>, timeoutMs: int, id: string, since: int)
    requires id in full && !Live(full[id], since, timeoutMs)
    requires InOrder(run) && forall i :: 0 <= i < |run| ==> since <= run[i].at
    requires forall i :: 0 <= i < |run| && run[i].Register? ==> run[i].uuid != id
    ensures var after := ApplyAll(full, run, timeoutMs); id in after && after[id] == full[id]
  {
    if run != [] {
      var n := |run| - 1;
      ExpiredStaysExpired(full, run[..n], timeoutMs, id, since);
      assert since <= run[n].at && (run[n].Register? ==> run[n].uuid != id);
    }
  }
}
