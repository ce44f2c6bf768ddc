// coordinator/src/demand_tracker.ts: how many requests for a model arrived within the last minute.
module DemandTracker {
  const WINDOW_MS: int := 60000

  datatype Request = Request(modelId: string, at: int)

  // ---------------------------------------------------------------- the full history

  // When requests for a model arrived, oldest first.
  function Stamps(history: seq<Request>, modelId: string): seq<int> {
    if history == [] then []
    else
      var n := |history| - 1;
      Stamps(history[..n], modelId) + (if history[n].modelId == modelId then [history[n].at] else [])
  }

  function After(stamps: seq<int>, cutoff: int): seq<int> {
    if stamps == [] then [] else (if stamps[0] > cutoff then [stamps[0]] else []) + After(stamps[1..], cutoff)
  }

  // The requests for a model that arrived later than a minute before now.
  function Window(history: seq<Request>, modelId: string, now: int): seq<int> {
    After(Stamps(history, modelId), now - WINDOW_MS)
  }

  predicate Ascending(s: seq<int>) {
    forall i, j :: 0 <= i < j < |s| ==> s[i] <= s[j]
  }

  predicate UpTo(s: seq<int>, now: int) {
    forall i :: 0 <= i < |s| ==> s[i] <= now
  }

  lemma {:induction false} AfterAppend(a: seq<int>, b: seq<int>, cutoff: int)
    ensures After(a + b, cutoff) == After(a, cutoff) + After(b, cutoff)
  {
    if a == [] {
      assert a + b == b;
    } else {
      assert (a + b)[1..] == a[1..] + b;
      AfterAppend(a[1..], b, cutoff);
    }
  }

  // What was pruned at an earlier cutoff is of no interest at a later one.
  lemma {:induction false} AfterAfter(s: seq<int>, early: int, late: int)
    requires early <= late
    ensures After(After(s, early), late) == After(s, late)
  {
    if s != [] {
      AfterAfter(s[1..], early, late);
      if s[0] > early {
        assert ([s[0]] + After(s[1..], early))[1..] == After(s[1..], early);
      } else {
        assert [] + After(s[1..], early) == After(s[1..], early);
      }
    }
  }

  lemma {:induction false} AfterFacts(s: seq<int>, cutoff: int)
    requires Ascending(s)
    ensures Ascending(After(s, cutoff))
    ensures forall x :: x in After(s, cutoff) ==> x in s && x > cutoff
  {
    if s != [] {
      AfterFacts(s[1..], cutoff);
      var t := After(s[1..], cutoff);
      var r := After(s, cutoff);
      forall i, j | 0 <= i < j < |r| ensures r[i] <= r[j] {
        if s[0] > cutoff {
          assert r[j] == t[j - 1] && t[j - 1] in t;
          if i > 0 {
            assert r[i] == t[i - 1];
          }
        }
      }
    }
  }

  // In an ascending list everything expired is a prefix.
  lemma {:induction false} ExpiredPrefix(s: seq<int>, cutoff: int, n: nat)
    requires Ascending(s) && n <= |s| && (forall i :: 0 <= i < n ==> s[i] <= cutoff) && (n < |s| ==> s[n] > cutoff)
    ensures s[n..] == After(s, cutoff)
  {
    if s != [] {
      if n > 0 {
        ExpiredPrefix(s[1..], cutoff, n - 1);
        assert s[n..] == s[1..][n - 1..];
      } else {
        ExpiredPrefix(s[1..], cutoff, 0);
      }
    }
  }

  // ---------------------------------------------------------------- the tracker

  // Drops the expired front of a list.
  method PruneExpired(list: seq<int>, now: int) returns (live: seq<int>)
    requires Ascending(list)
    ensures live == After(list, now - WINDOW_MS)
  {
    var cutoff := now - WINDOW_MS;
    var firstLive := 0;
    while firstLive < |list| && list[firstLive] <= cutoff
      invariant 0 <= firstLive <= |list| && forall i :: 0 <= i < firstLive ==> list[i] <= cutoff
    {
      firstLive := firstLive + 1;
    }
    ExpiredPrefix(list, cutoff, firstLive);
    return list[firstLive..];
  }

  // A list that agrees with all stamps as far as any window from now on can show.
  ghost predicate Tracks(list: seq<int>, stamps: seq<int>, latest: int) {
    && Ascending(list) && UpTo(list, latest)
    && After(list, latest - WINDOW_MS) == After(stamps, latest - WINDOW_MS)
  }

  lemma {:induction false} TracksLater(list: seq<int>, stamps: seq<int>, latest: int, now: int)
    requires Tracks(list, stamps, latest) && latest <= now
    ensures Tracks(list, stamps, now)
  {
    AfterAfter(list, latest - WINDOW_MS, now - WINDOW_MS);
    AfterAfter(stamps, latest - WINDOW_MS, now - WINDOW_MS);
  }

  lemma {:induction false} TracksPruned(list: seq<int>, stamps: seq<int>, now: int)
    requires Tracks(list, stamps, now)
    ensures Tracks(After(list, now - WINDOW_MS), stamps, now)
  {
    AfterFacts(list, now - WINDOW_MS);
    AfterAfter(list, now - WINDOW_MS, now - WINDOW_MS);
    var live := After(list, now - WINDOW_MS);
    forall i | 0 <= i < |live| ensures live[i] <= now {
      assert live[i] in live;
    }
  }

  lemma {:induction false} TracksGrown(list: seq<int>, stamps: seq<int>, now: int)
    requires Tracks(list, stamps, now)
    ensures Tracks(list + [now], stamps + [now], now)
    ensures After(stamps + [now], now - WINDOW_MS) == After(list, now - WINDOW_MS) + [now]
  {
    AfterAppend(list, [now], now - WINDOW_MS);
    AfterAppend(stamps, [now], now - WINDOW_MS);
  }

  lemma {:induction false} NothingTracked(now: int)
    ensures Tracks([], [], now) && After([], now - WINDOW_MS) == []
  {
  }

  ghost predicate TracksAll(timestamps: map<string, seq<int>>, history: seq<Request>, latest: int) {
    && (forall m :: m in timestamps <==> Stamps(history, m) != [])
    && (forall m :: m in timestamps ==> Tracks(timestamps[m], Stamps(history, m), latest))
  }

  lemma {:induction false} TracksAllLater(timestamps: map<string, seq<int>>, history: seq<Request>, latest: int,
      now: int)
    requires TracksAll(timestamps, history, latest) && latest <= now
    ensures TracksAll(timestamps, history, now)
  {
    forall m | m in timestamps ensures Tracks(timestamps[m], Stamps(history, m), now) {
      TracksLater(timestamps[m], Stamps(history, m), latest, now);
    }
  }

  lemma {:induction false} StampsSnoc(history: seq<Request>, r: Request, m: string)
    ensures Stamps(history + [r], m) == Stamps(history, m) + (if m == r.modelId then [r.at] else [])
  {
  }

  lemma {:induction false} TracksAllGrown(
      timestamps: map<string, seq<int>>, history: seq<Request>, now: int, modelId: string, list: seq<int>)
    requires TracksAll(timestamps, history, now) && Tracks(list, Stamps(history, modelId), now)
    ensures TracksAll(timestamps[modelId := list + [now]], history + [Request(modelId, now)], now)
    ensures Window(history + [Request(modelId, now)], modelId, now) == After(list, now - WINDOW_MS) + [now]
  {
    hide Stamps, After, Ascending, UpTo;
    var r := Request(modelId, now);
    forall m
      ensures Stamps(history + [r], m) == if m == modelId then Stamps(history, m) + [now] else Stamps(history, m)
    {
      StampsSnoc(history, r, m);
    }
    TracksGrown(list, Stamps(history, modelId), now);
  }

  class DemandTracker {
    var timestamps: map<string, seq<int>>
    // Every request ever recorded, and the latest clock value.
    ghost var history: seq<Request>
    ghost var latest: int

    ghost predicate Valid()
      reads this
    {
      TracksAll(timestamps, history, latest)
    }

    constructor (ghost start: int)
      ensures Valid() && history == [] && latest == start
    {
      timestamps := map[];
      history, latest := [], start;
    }

    // Time passes.
    ghost method Tick(now: int)
      requires Valid() && latest <= now
      modifies this`latest
      ensures Valid() && latest == now
    {
      TracksAllLater(timestamps, history, latest, now);
      latest := now;
    }

    method RecordRequest(modelId: string, now: int)
      requires Valid() && latest <= now
      modifies this
      ensures Valid() && history == old(history) + [Request(modelId, now)] && latest == now
      ensures modelId in timestamps && timestamps[modelId] == Window(history, modelId, now)
      ensures forall m :: m != modelId ==> (m in timestamps <==> m in old(timestamps))
      ensures forall m :: m != modelId && m in timestamps ==> timestamps[m] == old(timestamps)[m]
    {
      hide Stamps, After;
      Tick(now);
      var list: seq<int> := [];
      NothingTracked(now);
      if modelId in timestamps {
        list := PruneExpired(timestamps[modelId], now);
        AfterAfter(timestamps[modelId], now - WINDOW_MS, now - WINDOW_MS);
        TracksPruned(timestamps[modelId], Stamps(history, modelId), now);
      }
      TracksAllGrown(timestamps, history, now, modelId, list);
      timestamps := timestamps[modelId := list + [now]];
      history := history + [Request(modelId, now)];
    }

    method RecentDemand(modelId: string, now: int) returns (n: nat)
      requires Valid() && latest <= now
      modifies this
      ensures Valid() && history == old(history) && latest == now
      ensures n == |Window(history, modelId, now)|
    {
      hide Stamps, After;
      Tick(now);
      NothingTracked(now);
      if modelId !in timestamps {
        return 0;
      }
      var list := PruneExpired(timestamps[modelId], now);
      TracksPruned(timestamps[modelId], Stamps(history, modelId), now);
      timestamps := timestamps[modelId := list];
      return |list|;
    }
  }

  // ---------------------------------------------------------------- whole runs

  datatype Event = Record(modelId: string, at: int) | Read(modelId: string, at: int)

  function Recorded(run: seq<Event>): seq<Request> {
    if run == [] then []
    else
      var e := run[|run| - 1];
      Recorded(run[..|run| - 1]) + (if e.Record? then [Request(e.modelId, e.at)] else [])
  }

  // What the reads of a run answer if nothing is ever pruned.
  function Answers(run: seq<Event>): seq<nat> {
    if run == [] then []
    else
      var before := run[..|run| - 1];
      var e := run[|run| - 1];
      Answers(before) + (if e.Read? then [|Window(Recorded(before), e.modelId, e.at)|] else [])
  }

  predicate InOrder(run: seq<Event>) {
    forall i, j :: 0 <= i < j < |run| ==> run[i].at <= run[j].at
  }

  // Whatever reads and writes pruned before, every read of a run sees exactly the requests of its window.
  method Replay(run: seq<Event>) returns (answers: seq<nat>)
    requires InOrder(run)
    ensures answers == Answers(run)
  {
    hide Stamps, After, Window;
    answers := [];
    if run == [] {
      return;
    }
    var t := new DemandTracker(run[0].at);
    for i := 0 to |run|
      invariant t.Valid() && fresh(t) && t.history == Recorded(run[..i]) && answers == Answers(run[..i])
      invariant i < |run| ==> t.latest <= run[i].at
    {
      var e := run[i];
      assert run[..i + 1][..i] == run[..i];
      match e {
        case Record(modelId, at) =>
          t.RecordRequest(modelId, at);
          assert answers + [] == answers;
        case Read(modelId, at) =>
          var n := t.RecentDemand(modelId, at);
          answers := answers + [n];
          assert t.history + [] == t.history;
      }
    }
    assert run[..|run|] == run;
  }

  // ---------------------------------------------------------------- what a window counts

  // The requests for a model that are less than a minute old.
  function RecentIn(history: seq<Request>, modelId: string, now: int): set<nat> {
    set k | 0 <= k < |history| && history[k].modelId == modelId && now - history[k].at < 60000
  }

  // The demand for a model is the number of its requests within the last 60000 milliseconds.
  lemma {:induction false} WindowCounts(history: seq<Request>, modelId: string, now: int)
    ensures |Window(history, modelId, now)| == |RecentIn(history, modelId, now)|
  {
    if history != [] {
      var n := |history| - 1;
      var before, r := history[..n], history[n];
      WindowCounts(before, modelId, now);
      AfterAppend(Stamps(before, modelId), if r.modelId == modelId then [r.at] else [], now - WINDOW_MS);
      var old_, all := RecentIn(before, modelId, now), RecentIn(history, modelId, now);
      assert all == old_ + if r.modelId == modelId && now - r.at < 60000 then {n} else {};
      assert n !in old_;
    }
  }
}
