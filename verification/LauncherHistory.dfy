// What the launcher registry promises its callers, told from its answers alone: a launcher lives on its signs of life.
module LauncherHistory {
  import opened Expiry
  import opened Launchers
  import opened LauncherRegistry

  // Event k registered the launcher under this id.
  predicate RegisteredAs(run: seq<Event>, answers: seq<Answer>, k: int, id: string) {
    0 <= k < |run| && k < |answers| && run[k].Register? && answers[k] == Registered(id)
  }

  // A sign of life: a registration, or a heartbeat that was accepted.
  predicate Sign(run: seq<Event>, answers: seq<Answer>, k: int, id: string) {
    || RegisteredAs(run, answers, k, id)
    || (0 <= k < |run| && k < |answers| && run[k].Heartbeat? && run[k].launcherId == id && answers[k] == Alive(true))
  }

  // Before event n the launcher gave a sign of life that is at most the timeout old.
  ghost predicate Lives(run: seq<Event>, answers: seq<Answer>, n: nat, id: string, now: int, timeoutMs: int) {
    exists k :: 0 <= k < n && Sign(run, answers, k, id) && now - run[k].at <= timeoutMs
  }

  // Event k is the launcher's last registration before event n.
  ghost predicate LastRegistration(run: seq<Event>, answers: seq<Answer>, n: nat, id: string, k: int) {
    k < n && RegisteredAs(run, answers, k, id) && forall j :: k < j < n ==> !RegisteredAs(run, answers, j, id)
  }

  function Described(e: Event, id: string): LauncherInfo
    requires e.Register?
  {
    LauncherInfo(id, e.endpoint, e.servesModels, e.agentPort)
  }

  // The launcher lives, and this is its endpoint.
  ghost predicate LivesAt(run: seq<Event>, answers: seq<Answer>, n: nat, id: string, endpoint: string, now: int,
      timeoutMs: int) {
    && Lives(run, answers, n, id, now, timeoutMs)
    && exists k :: LastRegistration(run, answers, n, id, k) && run[k].endpoint == endpoint
  }

  // ---------------------------------------------------------------- the never-pruning map tells the signs

  ghost predicate AreAnswers(run: seq<Event>, answers: seq<Answer>, timeoutMs: int) {
    && |answers| == |run|
    && forall k :: 0 <= k < |run| ==> answers[k] == AnswerTo(ApplyAll(map[], run[..k], timeoutMs), run[k], timeoutMs)
  }

  lemma {:induction false} AnswersAreAnswers(run: seq<Event>, timeoutMs: int)
    ensures AreAnswers(run, Answers(run, timeoutMs), timeoutMs)
  {
    if run != [] {
      var n := |run| - 1;
      AnswersAreAnswers(run[..n], timeoutMs);
      forall k | 0 <= k < n ensures run[..n][..k] == run[..k] {}
    }
  }

  // Which signs the stored entry of an id stands for.
  ghost predicate Tells(full: Entries, run: seq<Event>, answers: seq<Answer>, n: nat, id: string) {
    && (forall k :: 0 <= k < n && Sign(run, answers, k, id) ==> id in full && run[k].at <= full[id].lastSeen)
    && (id in full ==> SeenAt(run, answers, n, id, full[id].lastSeen))
    && (id in full ==> KnownAs(run, answers, n, id, full[id].info))
  }

  ghost predicate SeenAt(run: seq<Event>, answers: seq<Answer>, n: nat, id: string, at: int) {
    exists k :: 0 <= k < n && Sign(run, answers, k, id) && run[k].at == at
  }

  ghost predicate KnownAs(run: seq<Event>, answers: seq<Answer>, n: nat, id: string, info: LauncherInfo) {
    exists k :: LastRegistration(run, answers, n, id, k) && info == Described(run[k], id)
  }

  // Of the launchers that live at one endpoint there is only one.
  ghost predicate Alone(full: Entries, now: int, timeoutMs: int) {
    forall x, y :: x in full && y in full && Holds(full[x], full[y].info.endpoint, now, timeoutMs)
                   && Live(full[y], now, timeoutMs)
      ==> x == y
  }

  lemma {:induction false} MapTells(run: seq<Event>, answers: seq<Answer>, n: nat, timeoutMs: int, id: string)
    requires InOrder(run) && AreAnswers(run, answers, timeoutMs) && n <= |run|
    ensures Tells(ApplyAll(map[], run[..n], timeoutMs), run, answers, n, id)
  {
    if n > 0 {
      MapTells(run, answers, n - 1, timeoutMs, id);
      assert run[..n][..n - 1] == run[..n - 1];
      OneMoreTells(ApplyAll(map[], run[..n - 1], timeoutMs), run, answers, n - 1, timeoutMs, id);
    }
  }

  // What one event does to the stored entry of an id.
  lemma {:induction false} SignTouches(full: Entries, run: seq<Event>, answers: seq<Answer>, n: nat, timeoutMs: int,
      id: string)
    requires n < |run| == |answers| && answers[n] == AnswerTo(full, run[n], timeoutMs)
    ensures var full' := Apply(full, run[n], timeoutMs);
            if RegisteredAs(run, answers, n, id) then
              id in full' && full'[id] == Stored(Described(run[n], id), run[n].at)
            else if Sign(run, answers, n, id) then
              id in full && id in full' && full'[id] == full[id].(lastSeen := run[n].at)
            else (id in full' <==> id in full) && (id in full ==> full'[id] == full[id])
  {
    hide IdFor;
  }

  lemma {:induction false} OneMoreTells(full: Entries, run: seq<Event>, answers: seq<Answer>, n: nat, timeoutMs: int,
      id: string)
    requires InOrder(run) && n < |run| == |answers| && answers[n] == AnswerTo(full, run[n], timeoutMs)
    requires Tells(full, run, answers, n, id)
    ensures Tells(Apply(full, run[n], timeoutMs), run, answers, n + 1, id)
  {
    SignTouches(full, run, answers, n, timeoutMs, id);
    var full' := Apply(full, run[n], timeoutMs);
    assert RegisteredAs(run, answers, n, id) ==> Sign(run, answers, n, id);
    hide Apply, AnswerTo, SeenAt, KnownAs, Sign, RegisteredAs, InOrder;
    if id in full' {
      StillSeen(run, answers, n, id, full'[id].lastSeen);
      StillKnown(run, answers, n, id, full'[id].info);
    }
    NoneSeenLater(full, full', run, answers, n, id);
  }

  lemma {:induction false} NoneSeenLater(full: Entries, full': Entries, run: seq<Event>, answers: seq<Answer>, n: nat,
      id: string)
    requires InOrder(run) && n < |run|
    requires forall k :: 0 <= k < n && Sign(run, answers, k, id) ==> id in full && run[k].at <= full[id].lastSeen
    requires id in full ==> id in full' && full'[id].lastSeen in {full[id].lastSeen, run[n].at}
    requires Sign(run, answers, n, id) ==> id in full' && full'[id].lastSeen == run[n].at
    ensures forall k :: 0 <= k < n + 1 && Sign(run, answers, k, id) ==> id in full' && run[k].at <= full'[id].lastSeen
  {
    hide Sign;
    assert forall k :: 0 <= k < n ==> run[k].at <= run[n].at;
  }

  lemma {:induction false} StillSeen(run: seq<Event>, answers: seq<Answer>, n: nat, id: string, at: int)
    requires n < |run|
    ensures SeenAt(run, answers, n, id, at) || (Sign(run, answers, n, id) && run[n].at == at)
        ==> SeenAt(run, answers, n + 1, id, at)
  {
    hide Sign;
    if k :| 0 <= k < n && Sign(run, answers, k, id) && run[k].at == at {
      assert k < n + 1;
    }
  }

  lemma {:induction false} StillKnown(run: seq<Event>, answers: seq<Answer>, n: nat, id: string, info: LauncherInfo)
    requires n < |run|
    ensures KnownAs(run, answers, n, id, info) && !RegisteredAs(run, answers, n, id)
        ==> KnownAs(run, answers, n + 1, id, info)
    ensures RegisteredAs(run, answers, n, id) && info == Described(run[n], id)
        ==> KnownAs(run, answers, n + 1, id, info)
  {
    if k :| LastRegistration(run, answers, n, id, k) && info == Described(run[k], id) {
      assert !RegisteredAs(run, answers, n, id) ==> LastRegistration(run, answers, n + 1, id, k);
    }
    assert RegisteredAs(run, answers, n, id) ==> LastRegistration(run, answers, n + 1, id, n);
  }

  lemma {:induction false} LiveIffLives(full: Entries, run: seq<Event>, answers: seq<Answer>, n: nat, id: string,
      now: int,
      timeoutMs: int)
    requires Tells(full, run, answers, n, id)
    ensures id in full && Live(full[id], now, timeoutMs) <==> Lives(run, answers, n, id, now, timeoutMs)
  {
    if id in full && Live(full[id], now, timeoutMs) {
      var k :| 0 <= k < n && Sign(run, answers, k, id) && run[k].at == full[id].lastSeen;
    }
  }

  lemma {:induction false} HoldsIffLivesAt(full: Entries, run: seq<Event>, answers: seq<Answer>, n: nat, id: string,
      endpoint: string, now: int, timeoutMs: int)
    requires Tells(full, run, answers, n, id)
    ensures id in full && Holds(full[id], endpoint, now, timeoutMs)
       <==> LivesAt(run, answers, n, id, endpoint, now, timeoutMs)
  {
    LiveIffLives(full, run, answers, n, id, now, timeoutMs);
    if id in full {
      OneLastRegistration(run, answers, n, id);
    }
  }

  lemma {:induction false} OneLastRegistration(run: seq<Event>, answers: seq<Answer>, n: nat, id: string)
    ensures forall j, k :: LastRegistration(run, answers, n, id, j) && LastRegistration(run, answers, n, id, k)
              ==> j == k
  {
  }

  // ---------------------------------------------------------------- the laws

  // What each call answers. A heartbeat is accepted if and only if the launcher lives; a list holds exactly the
  // launchers that live, as last registered; and a registration keeps the id of a launcher that lives at its endpoint,
  // or else brings a new one.
  lemma {:induction false} AnswersFollowSigns(run: seq<Event>, timeoutMs: int, n: nat)
    requires InOrder(run) && n < |run|
    ensures var answers := Answers(run, timeoutMs);
            && |answers| == |run|
            && match run[n]
               case Heartbeat(id, at) => answers[n] == Alive(Lives(run, answers, n, id, at, timeoutMs))
               case List(at) =>
                 && answers[n].Active?
                 && (forall l :: l in answers[n].launchers <==>
                       && Lives(run, answers, n, l.launcherId, at, timeoutMs)
                       && exists k :: LastRegistration(run, answers, n, l.launcherId, k)
                                      && l == Described(run[k], l.launcherId))
               case Register(endpoint, _, _, uuid, at) =>
                 && answers[n].Registered?
                 && (if exists id :: LivesAt(run, answers, n, id, endpoint, at, timeoutMs)
                     then LivesAt(run, answers, n, answers[n].launcherId, endpoint, at, timeoutMs)
                     else answers[n].launcherId == uuid)
  {
    var answers := Answers(run, timeoutMs);
    AnswersAreAnswers(run, timeoutMs);
    var full := ApplyAll(map[], run[..n], timeoutMs);
    assert answers[n] == AnswerTo(full, run[n], timeoutMs);
    forall id ensures Tells(full, run, answers, n, id) {
      MapTells(run, answers, n, timeoutMs, id);
    }
    hide Answers, ApplyAll, AreAnswers;
    match run[n]
    case Heartbeat(id, at) => LiveIffLives(full, run, answers, n, id, at, timeoutMs);
    case List(at) => ListFollowsSigns(full, run, answers, n, at, timeoutMs);
    case Register(endpoint, _, _, uuid, at) =>
      forall id ensures id in full && Holds(full[id], endpoint, at, timeoutMs)
                   <==> LivesAt(run, answers, n, id, endpoint, at, timeoutMs) {
        HoldsIffLivesAt(full, run, answers, n, id, endpoint, at, timeoutMs);
      }
  }

  lemma {:induction false} ListFollowsSigns(full: Entries, run: seq<Event>, answers: seq<Answer>, n: nat, at: int,
      timeoutMs: int)
    requires forall id :: Tells(full, run, answers, n, id)
    ensures forall l :: l in ActiveLaunchers(full, at, timeoutMs) <==>
              && Lives(run, answers, n, l.launcherId, at, timeoutMs)
              && exists k :: LastRegistration(run, answers, n, l.launcherId, k) && l == Described(run[k], l.launcherId)
  {
    forall l ensures l in ActiveLaunchers(full, at, timeoutMs) <==>
        && Lives(run, answers, n, l.launcherId, at, timeoutMs)
        && exists k :: LastRegistration(run, answers, n, l.launcherId, k) && l == Described(run[k], l.launcherId)
    {
      if l in ActiveLaunchers(full, at, timeoutMs) {
        var id :| id in full && Live(full[id], at, timeoutMs) && l == full[id].info;
        assert Tells(full, run, answers, n, id);
        LiveIffLives(full, run, answers, n, id, at, timeoutMs);
      } else {
        assert Tells(full, run, answers, n, l.launcherId);
        LiveIffLives(full, run, answers, n, l.launcherId, at, timeoutMs);
        OneLastRegistration(run, answers, n, l.launcherId);
      }
    }
  }

  // ---------------------------------------------------------------- a launcher that keeps beating

  // Event k is the launcher's registration, a later one at its endpoint, or its heartbeat.
  predicate Beat(run: seq<Event>, a: nat, id: string, k: int) {
    && a <= k < |run| && run[a].Register?
    && (k == a || (run[k].Heartbeat? && run[k].launcherId == id)
        || (run[k].Register? && run[k].endpoint == run[a].endpoint))
  }

  // Whatever event comes, the last beat is at most the timeout ago.
  ghost predicate KeepsBeating(run: seq<Event>, a: nat, id: string, timeoutMs: int) {
    forall n :: a < n < |run| ==> exists k :: k < n && Beat(run, a, id, k) && run[n].at - run[k].at <= timeoutMs
  }

  // The launcher is there, under the one id.
  ghost predicate Answered(run: seq<Event>, answers: seq<Answer>, n: nat, endpoint: string, id: string) {
    && n < |run| == |answers|
    && match run[n]
       case Heartbeat(x, _) => x == id ==> answers[n] == Alive(true)
       case List(_) => answers[n].Active? && IsListed(answers[n].launchers, id, endpoint)
       case Register(x, _, _, _, _) => x == endpoint ==> answers[n] == Registered(id)
  }

  ghost predicate IsListed(launchers: set<LauncherInfo>, id: string, endpoint: string) {
    exists l :: l in launchers && l.launcherId == id && l.endpoint == endpoint
  }

  // A launcher that beats at most the timeout apart stays listed under its id: every list from its registration on
  // holds it, every heartbeat of it is accepted, and every registration at its endpoint keeps its id.
  lemma {:induction false} BeatingStaysListed(run: seq<Event>, timeoutMs: int, a: nat, id: string, n: nat)
    requires InOrder(run) && FreshIds(run) && a < n < |run|
    requires RegisteredAs(run, Answers(run, timeoutMs), a, id) && KeepsBeating(run, a, id, timeoutMs)
    ensures Answered(run, Answers(run, timeoutMs), n, run[a].endpoint, id)
    decreases n
  {
    hide Answers, InOrder, FreshIds, Lives, LivesAt;
    var answers := Answers(run, timeoutMs);
    var e := run[a].endpoint;
    var k :| k < n && Beat(run, a, id, k) && run[n].at - run[k].at <= timeoutMs;
    AnswersAreAnswers(run, timeoutMs);
    hide AreAnswers;
    if k > a {
      BeatingStaysListed(run, timeoutMs, a, id, k);
    }
    LivesByBeat(run, answers, n, k, id, timeoutMs);
    AnswersByLife(run, timeoutMs, a, id, n);
  }

  lemma {:induction false} AnswersByLife(run: seq<Event>, timeoutMs: int, a: nat, id: string, n: nat)
    requires InOrder(run) && FreshIds(run) && a < n < |run|
    requires RegisteredAs(run, Answers(run, timeoutMs), a, id)
    requires Lives(run, Answers(run, timeoutMs), n, id, run[n].at, timeoutMs)
    ensures Answered(run, Answers(run, timeoutMs), n, run[a].endpoint, id)
  {
    hide Answers, InOrder, FreshIds, Lives, LivesAt;
    var answers := Answers(run, timeoutMs);
    var e := run[a].endpoint;
    var last := LastOne(run, answers, a, n, id);
    EndpointStays(run, timeoutMs, a, last, id);
    AnswersFollowSigns(run, timeoutMs, n);
    match run[n]
    case Heartbeat(_, _) =>
    case List(_) =>
      assert Described(run[last], id) in answers[n].launchers;
    case Register(x, _, _, _, at) =>
      if x == e {
        LivesAtByLast(run, answers, n, id, e, at, timeoutMs, last);
        OneAtEndpoint(run, timeoutMs, n, id, answers[n].launcherId, e, at);
      }
  }

  lemma {:induction false} LivesByBeat(run: seq<Event>, answers: seq<Answer>, n: nat, k: int, id: string,
      timeoutMs: int)
    requires 0 <= k < n < |run| == |answers| && Sign(run, answers, k, id) && run[n].at - run[k].at <= timeoutMs
    ensures Lives(run, answers, n, id, run[n].at, timeoutMs)
  {
  }

  lemma {:induction false} LivesAtByLast(run: seq<Event>, answers: seq<Answer>, n: nat, id: string, endpoint: string,
      now: int, timeoutMs: int, last: int)
    requires Lives(run, answers, n, id, now, timeoutMs)
    requires LastRegistration(run, answers, n, id, last) && run[last].endpoint == endpoint
    ensures LivesAt(run, answers, n, id, endpoint, now, timeoutMs)
  {
  }

  lemma {:induction false} LastOne(run: seq<Event>, answers: seq<Answer>, a: nat, n: nat, id: string)
    returns (last: nat)
    requires a < n <= |run| && RegisteredAs(run, answers, a, id)
    ensures a <= last && LastRegistration(run, answers, n, id, last)
    decreases n
  {
    if n == a + 1 || RegisteredAs(run, answers, n - 1, id) {
      last := n - 1;
    } else {
      last := LastOne(run, answers, a, n - 1, id);
    }
  }

  // With fresh ids an id is never given to another endpoint.
  lemma {:induction false} EndpointStays(run: seq<Event>, timeoutMs: int, a: nat, k: nat, id: string)
    requires InOrder(run) && FreshIds(run) && a <= k < |run|
    requires RegisteredAs(run, Answers(run, timeoutMs), a, id) && RegisteredAs(run, Answers(run, timeoutMs), k, id)
    ensures run[k].endpoint == run[a].endpoint
    decreases k
  {
    hide Answers;
    if a < k {
      var answers := Answers(run, timeoutMs);
      AnswersFollowSigns(run, timeoutMs, k);
      IdWasIssued(run, timeoutMs, a, id);
      assert LivesAt(run, answers, k, id, run[k].endpoint, run[k].at, timeoutMs);
      var j :| LastRegistration(run, answers, k, id, j) && run[j].endpoint == run[k].endpoint;
      assert j >= a;
      EndpointStays(run, timeoutMs, a, j, id);
    }
  }

  lemma {:induction false} IdWasIssued(run: seq<Event>, timeoutMs: int, a: nat, id: string)
    requires RegisteredAs(run, Answers(run, timeoutMs), a, id)
    ensures exists i :: 0 <= i <= a && run[i].Register? && run[i].uuid == id
  {
    AnswersAreAnswers(run, timeoutMs);
    assert run[..a + 1][..a] == run[..a];
    assert id in ApplyAll(map[], run[..a + 1], timeoutMs);
    IdsAreIssued(run[..a + 1], timeoutMs);
    var i :| 0 <= i < a + 1 && run[..a + 1][i].Register? && run[..a + 1][i].uuid == id;
    assert run[i] == run[..a + 1][i];
  }

  lemma {:induction false} OneAtEndpoint(run: seq<Event>, timeoutMs: int, n: nat, x: string, y: string,
      endpoint: string,
      now: int)
    requires InOrder(run) && n < |run| && now == run[n].at
    requires LivesAt(run, Answers(run, timeoutMs), n, x, endpoint, now, timeoutMs)
    requires LivesAt(run, Answers(run, timeoutMs), n, y, endpoint, now, timeoutMs)
    ensures x == y
  {
    var answers, full := Answers(run, timeoutMs), ApplyAll(map[], run[..n], timeoutMs);
    AnswersAreAnswers(run, timeoutMs);
    MapTells(run, answers, n, timeoutMs, x);
    MapTells(run, answers, n, timeoutMs, y);
    HoldsIffLivesAt(full, run, answers, n, x, endpoint, now, timeoutMs);
    HoldsIffLivesAt(full, run, answers, n, y, endpoint, now, timeoutMs);
    MapIsAlone(run, n, timeoutMs, now);
  }

  lemma {:induction false} MapIsAlone(run: seq<Event>, n: nat, timeoutMs: int, now: int)
    requires InOrder(run) && n <= |run| && forall k :: 0 <= k < n ==> run[k].at <= now
    ensures Alone(ApplyAll(map[], run[..n], timeoutMs), now, timeoutMs)
  {
    if n > 0 {
      MapIsAlone(run, n - 1, timeoutMs, run[n - 1].at);
      assert run[..n][..n - 1] == run[..n - 1];
      OneMoreAlone(ApplyAll(map[], run[..n - 1], timeoutMs), run[n - 1], timeoutMs);
    }
  }

  lemma {:induction false} OneMoreAlone(full: Entries, e: Event, timeoutMs: int)
    requires Alone(full, e.at, timeoutMs)
    ensures Alone(Apply(full, e, timeoutMs), e.at, timeoutMs)
  {
  }
}
