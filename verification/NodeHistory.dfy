// What the node registry promises its callers, told from its answers alone: a node lives on its signs of life.
module NodeHistory {
  import opened Expiry
  import opened NodeRegistry

  type Nodes = map<string, Stored<NodeInfo>>

  // Event k registered the node.
  predicate Registers(run: seq<Event>, k: int, id: string) {
    0 <= k < |run| && run[k].Register? && run[k].info.nodeId == id
  }

  // A sign of life: a registration, or a heartbeat that was accepted.
  predicate Sign(run: seq<Event>, answers: seq<Answer>, k: int, id: string) {
    || Registers(run, k, id)
    || (0 <= k < |run| && k < |answers| && run[k].Heartbeat? && run[k].nodeId == id && answers[k] == Alive(true))
  }

  // Before event n the node gave a sign of life that is at most the timeout old.
  ghost predicate Lives(run: seq<Event>, answers: seq<Answer>, n: nat, id: string, now: int, timeoutMs: int) {
    exists k :: 0 <= k < n && Sign(run, answers, k, id) && now - run[k].at <= timeoutMs
  }

  // Event k is the node's last registration before event n.
  ghost predicate LastRegistration(run: seq<Event>, n: nat, id: string, k: int) {
    k < n && Registers(run, k, id) && forall j :: k < j < n ==> !Registers(run, j, id)
  }

  // ---------------------------------------------------------------- the never-pruning map tells the signs

  ghost predicate AreAnswers(run: seq<Event>, answers: seq<Answer>, timeoutMs: int) {
    && |answers| == |run|
    && forall k :: 0 <= k < |run| ==> answers[k] == AnswerTo(ApplyAll(map[], run[..k], timeoutMs), run[k], timeoutMs)
  }

  lemma {:induction false} AnswersAreAnswers(run: seq<Event>, timeoutMs: int)
    ensures AreAnswers(run, Answers(run, timeoutMs), timeoutMs)
  {
    if run != [] {
      var n := |run| - 1;
      AnswersAreAnswers(run[..n], timeoutMs);
      forall k | 0 <= k < n ensures run[..n][..k] == run[..k] {}
    }
  }

  // Which signs the stored entry of an id stands for.
  ghost predicate Tells(full: Nodes, run: seq<Event>, answers: seq<Answer>, n: nat, id: string) {
    && (forall k :: 0 <= k < n && Sign(run, answers, k, id) ==> id in full && run[k].at <= full[id].lastSeen)
    && (id in full ==> SeenAt(run, answers, n, id, full[id].lastSeen))
    && (id in full ==> KnownAs(run, n, id, full[id].info))
  }

  ghost predicate SeenAt(run: seq<Event>, answers: seq<Answer>, n: nat, id: string, at: int) {
    exists k :: 0 <= k < n && Sign(run, answers, k, id) && run[k].at == at
  }

  ghost predicate KnownAs(run: seq<Event>, n: nat, id: string, info: NodeInfo) {
    exists k :: LastRegistration(run, n, id, k) && info == run[k].info
  }

  lemma {:induction false} MapTells(run: seq<Event>, answers: seq<Answer>, n: nat, timeoutMs: int, id: string)
    requires InOrder(run) && AreAnswers(run, answers, timeoutMs) && n <= |run|
    ensures Tells(ApplyAll(map[], run[..n], timeoutMs), run, answers, n, id)
  {
    if n > 0 {
      MapTells(run, answers, n - 1, timeoutMs, id);
      assert run[..n][..n - 1] == run[..n - 1];
      OneMoreTells(ApplyAll(map[], run[..n - 1], timeoutMs), run, answers, n - 1, timeoutMs, id);
    }
  }

  // What one event does to the stored entry of an id.
  lemma {:induction false} SignTouches(full: Nodes, run: seq<Event>, answers: seq<Answer>, n: nat, timeoutMs: int,
      id: string)
    requires n < |run| == |answers| && answers[n] == AnswerTo(full, run[n], timeoutMs)
    ensures var full' := Apply(full, run[n], timeoutMs);
            if Registers(run, n, id) then id in full' && full'[id] == Stored(run[n].info, run[n].at)
            else if Sign(run, answers, n, id) then
              id in full && id in full' && full'[id] == full[id].(lastSeen := run[n].at)
            else (id in full' <==> id in full) && (id in full ==> full'[id] == full[id])
  {
  }

  lemma {:induction false} OneMoreTells(full: Nodes, run: seq<Event>, answers: seq<Answer>, n: nat, timeoutMs: int,
      id: string)
    requires InOrder(run) && n < |run| == |answers| && answers[n] == AnswerTo(full, run[n], timeoutMs)
    requires Tells(full, run, answers, n, id)
    ensures Tells(Apply(full, run[n], timeoutMs), run, answers, n + 1, id)
  {
    SignTouches(full, run, answers, n, timeoutMs, id);
    var full' := Apply(full, run[n], timeoutMs);
    assert Registers(run, n, id) ==> Sign(run, answers, n, id);
    hide Apply, AnswerTo, SeenAt, KnownAs, Sign, Registers, InOrder;
    if id in full' {
      StillSeen(run, answers, n, id, full'[id].lastSeen);
      StillKnown(run, n, id, full'[id].info);
    }
    NoneSeenLater(full, full', run, answers, n, id);
  }

  lemma {:induction false} NoneSeenLater(full: Nodes, full': Nodes, run: seq<Event>, answers: seq<Answer>, n: nat,
      id: string)
    requires InOrder(run) && n < |run|
    requires forall k :: 0 <= k < n && Sign(run, answers, k, id) ==> id in full && run[k].at <= full[id].lastSeen
    requires id in full ==> id in full' && full'[id].lastSeen in {full[id].lastSeen, run[n].at}
    requires Sign(run, answers, n, id) ==> id in full' && full'[id].lastSeen == run[n].at
    ensures forall k :: 0 <= k < n + 1 && Sign(run, answers, k, id) ==> id in full' && run[k].at <= full'[id].lastSeen
  {
    hide Sign;
    assert forall k :: 0 <= k < n ==> run[k].at <= run[n].at;
  }

  lemma {:induction false} StillSeen(run: seq<Event>, answers: seq<Answer>, n: nat, id: string, at: int)
    requires n < |run|
    ensures SeenAt(run, answers, n, id, at) || (Sign(run, answers, n, id) && run[n].at == at)
        ==> SeenAt(run, answers, n + 1, id, at)
  {
    hide Sign;
    if k :| 0 <= k < n && Sign(run, answers, k, id) && run[k].at == at {
      assert k < n + 1;
    }
  }

  lemma {:induction false} StillKnown(run: seq<Event>, n: nat, id: string, info: NodeInfo)
    requires n < |run|
    ensures KnownAs(run, n, id, info) && !Registers(run, n, id) ==> KnownAs(run, n + 1, id, info)
    ensures Registers(run, n, id) && info == run[n].info ==> KnownAs(run, n + 1, id, info)
  {
    if k :| LastRegistration(run, n, id, k) && info == run[k].info {
      assert !Registers(run, n, id) ==> LastRegistration(run, n + 1, id, k);
    }
    assert Registers(run, n, id) ==> LastRegistration(run, n + 1, id, n);
  }

  lemma {:induction false} LiveIffLives(full: Nodes, run: seq<Event>, answers: seq<Answer>, n: nat, id: string,
      now: int,
      timeoutMs: int)
    requires Tells(full, run, answers, n, id)
    ensures id in full && Live(full[id], now, timeoutMs) <==> Lives(run, answers, n, id, now, timeoutMs)
  {
    if id in full && Live(full[id], now, timeoutMs) {
      var k :| 0 <= k < n && Sign(run, answers, k, id) && run[k].at == full[id].lastSeen;
    }
  }

  // ---------------------------------------------------------------- the laws

  // What each call answers. A heartbeat is accepted if and only if the node lives, and a list holds exactly the trusted
  // nodes that live, as last registered.
  lemma {:induction false} AnswersFollowSigns(run: seq<Event>, timeoutMs: int, n: nat)
    requires InOrder(run) && n < |run|
    ensures var answers := Answers(run, timeoutMs);
            && |answers| == |run|
            && match run[n]
               case Register(info, _) => answers[n] == Registered(info.nodeId)
               case Heartbeat(id, at) => answers[n] == Alive(Lives(run, answers, n, id, at, timeoutMs))
               case List(trusted, at) =>
                 && answers[n].Active?
                 && (forall x :: x in answers[n].nodes <==>
                       && x.nodeId in trusted && Lives(run, answers, n, x.nodeId, at, timeoutMs)
                       && exists k :: LastRegistration(run, n, x.nodeId, k) && x == run[k].info)
  {
    var answers := Answers(run, timeoutMs);
    AnswersAreAnswers(run, timeoutMs);
    var full := ApplyAll(map[], run[..n], timeoutMs);
    assert answers[n] == AnswerTo(full, run[n], timeoutMs);
    forall id ensures Tells(full, run, answers, n, id) {
      MapTells(run, answers, n, timeoutMs, id);
    }
    hide Answers, ApplyAll, AreAnswers;
    match run[n]
    case Register(_, _) =>
    case Heartbeat(id, at) => LiveIffLives(full, run, answers, n, id, at, timeoutMs);
    case List(trusted, at) => ListFollowsSigns(full, run, answers, n, trusted, at, timeoutMs);
  }

  lemma {:induction false} ListFollowsSigns(full: Nodes, run: seq<Event>, answers: seq<Answer>, n: nat,
      trusted: set<string>, at: int, timeoutMs: int)
    requires forall id :: Tells(full, run, answers, n, id)
    ensures forall x :: x in ActiveNodes(full, trusted, at, timeoutMs) <==>
              && x.nodeId in trusted && Lives(run, answers, n, x.nodeId, at, timeoutMs)
              && exists k :: LastRegistration(run, n, x.nodeId, k) && x == run[k].info
  {
    forall x ensures x in ActiveNodes(full, trusted, at, timeoutMs) <==>
        && x.nodeId in trusted && Lives(run, answers, n, x.nodeId, at, timeoutMs)
        && exists k :: LastRegistration(run, n, x.nodeId, k) && x == run[k].info
    {
      if x in ActiveNodes(full, trusted, at, timeoutMs) {
        var id :| id in full && Live(full[id], at, timeoutMs) && id in trusted && x == full[id].info;
        assert Tells(full, run, answers, n, id);
        LiveIffLives(full, run, answers, n, id, at, timeoutMs);
      } else {
        assert Tells(full, run, answers, n, x.nodeId);
        LiveIffLives(full, run, answers, n, x.nodeId, at, timeoutMs);
        OneLastRegistration(run, n, x.nodeId);
      }
    }
  }

  lemma {:induction false} OneLastRegistration(run: seq<Event>, n: nat, id: string)
    ensures forall j, k :: LastRegistration(run, n, id, j) && LastRegistration(run, n, id, k) ==> j == k
  {
  }

  // ---------------------------------------------------------------- a node that keeps beating

  predicate Beats(run: seq<Event>, a: nat, id: string, k: int) {
    a <= k < |run| && (Registers(run, k, id) || (run[k].Heartbeat? && run[k].nodeId == id))
  }

  ghost predicate KeepsBeating(run: seq<Event>, a: nat, id: string, timeoutMs: int) {
    forall n :: a < n < |run| ==> exists k :: k < n && Beats(run, a, id, k) && run[n].at - run[k].at <= timeoutMs
  }

  // The node is there.
  ghost predicate Answered(run: seq<Event>, answers: seq<Answer>, n: nat, id: string) {
    && n < |run| == |answers|
    && match run[n]
       case Heartbeat(x, _) => x == id ==> answers[n] == Alive(true)
       case List(trusted, _) => answers[n].Active? && (id in trusted ==> IsListed(answers[n].nodes, id))
       case Register(_, _) => true
  }

  ghost predicate IsListed(nodes: set<NodeInfo>, id: string) {
    exists x :: x in nodes && x.nodeId == id
  }

  // A node that registers and then beats at most the timeout apart is always there: every heartbeat of it is accepted,
  // and every list that trusts it holds it.
  lemma {:induction false} BeatingStaysListed(run: seq<Event>, timeoutMs: int, a: nat, id: string, n: nat)
    requires InOrder(run) && a < n < |run| && Registers(run, a, id) && KeepsBeating(run, a, id, timeoutMs)
    ensures Answered(run, Answers(run, timeoutMs), n, id)
    decreases n
  {
    hide Answers, InOrder, Lives;
    var answers := Answers(run, timeoutMs);
    var k :| k < n && Beats(run, a, id, k) && run[n].at - run[k].at <= timeoutMs;
    AnswersAreAnswers(run, timeoutMs);
    hide AreAnswers;
    if !Registers(run, k, id) {
      BeatingStaysListed(run, timeoutMs, a, id, k);
    }
    LivesByBeat(run, answers, n, k, id, timeoutMs);
    AnswersByLife(run, timeoutMs, a, id, n);
  }

  lemma {:induction false} LivesByBeat(run: seq<Event>, answers: seq<Answer>, n: nat, k: int, id: string,
      timeoutMs: int)
    requires 0 <= k < n < |run| == |answers| && Sign(run, answers, k, id) && run[n].at - run[k].at <= timeoutMs
    ensures Lives(run, answers, n, id, run[n].at, timeoutMs)
  {
  }

  lemma {:induction false} AnswersByLife(run: seq<Event>, timeoutMs: int, a: nat, id: string, n: nat)
    requires InOrder(run) && a < n < |run| && Registers(run, a, id)
    requires Lives(run, Answers(run, timeoutMs), n, id, run[n].at, timeoutMs)
    ensures Answered(run, Answers(run, timeoutMs), n, id)
  {
    hide Answers, InOrder, Lives;
    AnswersFollowSigns(run, timeoutMs, n);
    var last := LastOne(run, a, n, id);
    if run[n].List? && id in run[n].trusted {
      assert run[last].info in Answers(run, timeoutMs)[n].nodes;
    }
  }

  lemma {:induction false} LastOne(run: seq<Event>, a: nat, n: nat, id: string) returns (last: nat)
    requires a < n <= |run| && Registers(run, a, id)
    ensures LastRegistration(run, n, id, last)
    decreases n
  {
    if n == a + 1 || Registers(run, n - 1, id) {
      last := n - 1;
    } else {
      last := LastOne(run, a, n - 1, id);
    }
  }
}
