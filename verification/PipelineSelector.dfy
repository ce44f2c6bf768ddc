// coordinator/src/pipeline_selector.ts: which node drives a pipeline and which ones contribute to it.
module PipelineSelector {
  import opened NodeRegistry
  import opened Options
  import opened Seqs

  datatype NodeStats = NodeStats(agreements: nat, disagreements: nat)

  // The reputation tracker's statistics; a node without any has none on either side.
  type Reputation = map<string, NodeStats>

  function Score(reputation: Reputation, nodeId: string): real {
    var s := if nodeId in reputation then reputation[nodeId] else NodeStats(0, 0);
    (s.agreements + 1) as real / (s.agreements + s.disagreements + 2) as real
  }

  function Memory(n: NodeInfo): int {
    if n.availableMemoryMb.Some? then n.availableMemoryMb.value else 0
  }

  // Ranked at least as well: by score, then by memory.
  predicate AtLeast(reputation: Reputation, a: NodeInfo, b: NodeInfo) {
    var p, q := Score(reputation, a.nodeId), Score(reputation, b.nodeId);
    p > q || (p == q && Memory(a) >= Memory(b))
  }

  predicate Tied(reputation: Reputation, a: NodeInfo, b: NodeInfo) {
    Score(reputation, a.nodeId) == Score(reputation, b.nodeId) && Memory(a) == Memory(b)
  }

  ghost predicate Ranked(reputation: Reputation, s: seq<NodeInfo>) {
    forall i, j :: 0 <= i < j < |s| ==> AtLeast(reputation, s[i], s[j])
  }

  // ---------------------------------------------------------------- the stable sort

  function Insert(reputation: Reputation, x: NodeInfo, s: seq<NodeInfo>): seq<NodeInfo> {
    if s == [] || AtLeast(reputation, x, s[0]) then [x] + s else [s[0]] + Insert(reputation, x, s[1..])
  }

  function Sort(reputation: Reputation, s: seq<NodeInfo>): seq<NodeInfo> {
    if s == [] then [] else Insert(reputation, s[0], Sort(reputation, s[1..]))
  }

  lemma {:induction false} InsertKeepsElements(reputation: Reputation, x: NodeInfo, s: seq<NodeInfo>)
    ensures multiset(Insert(reputation, x, s)) == multiset(s) + multiset{x}
  {
    if s != [] && !AtLeast(reputation, x, s[0]) {
      InsertKeepsElements(reputation, x, s[1..]);
      assert s == [s[0]] + s[1..];
    }
  }

  lemma {:induction false} RankedCons(reputation: Reputation, x: NodeInfo, s: seq<NodeInfo>)
    requires Ranked(reputation, s) && (s != [] ==> AtLeast(reputation, x, s[0]))
    ensures Ranked(reputation, [x] + s)
  {
  }

  lemma {:induction false} InsertKeepsRanked(reputation: Reputation, x: NodeInfo, s: seq<NodeInfo>)
    requires Ranked(reputation, s)
    ensures Ranked(reputation, Insert(reputation, x, s))
  {
    if s == [] || AtLeast(reputation, x, s[0]) {
      RankedCons(reputation, x, s);
    } else {
      var t := Insert(reputation, x, s[1..]);
      InsertKeepsRanked(reputation, x, s[1..]);
      assert t[0] == x || (|s| > 1 && t[0] == s[1]);
      RankedCons(reputation, s[0], t);
    }
  }

  lemma {:induction false} SortSorts(reputation: Reputation, s: seq<NodeInfo>)
    ensures Ranked(reputation, Sort(reputation, s)) && multiset(Sort(reputation, s)) == multiset(s)
  {
    if s != [] {
      SortSorts(reputation, s[1..]);
      InsertKeepsRanked(reputation, s[0], Sort(reputation, s[1..]));
      InsertKeepsElements(reputation, s[0], Sort(reputation, s[1..]));
      assert s == [s[0]] + s[1..];
    }
  }

  // ---------------------------------------------------------------- ranking with random ties

  // The successive values of Math.random.
  ghost predicate InUnitInterval(random: nat -> real) {
    forall i: nat :: 0.0 <= random(i) < 1.0
  }

  // Math.floor(x * n)
  method RandomIndex(x: real, n: nat) returns (idx: nat)
    requires 0.0 <= x < 1.0 && n > 0
    ensures idx < n
  {
    var y := n as real;
    assert x * y >= 0.0;
    assert (1.0 - x) * y > 0.0;
    assert (1.0 - x) * y == y - x * y;
    return (x * y).Floor;
  }

  lemma {:induction false} MoveOne(out: seq<NodeInfo>, s: seq<NodeInfo>, i: nat)
    requires i < |s|
    ensures multiset(out + [s[i]]) + multiset(s[..i] + s[i + 1..]) == multiset(out) + multiset(s)
  {
    assert s == s[..i] + [s[i]] + s[i + 1..];
  }

  // One group of ties in random order.
  method Shuffle(group: seq<NodeInfo>, random: nat -> real, drawn: nat) returns (out: seq<NodeInfo>, after: nat)
    requires InUnitInterval(random)
    ensures |out| == |group| && multiset(out) == multiset(group)
  {
    var shuffled := group;
    out, after := [], drawn;
    while |shuffled| > 0
      invariant |out| + |shuffled| == |group|
      invariant multiset(out) + multiset(shuffled) == multiset(group)
      decreases |shuffled|
    {
      var idx := RandomIndex(random(after), |shuffled|);
      after := after + 1;
      MoveOne(out, shuffled, idx);
      out := out + [shuffled[idx]];
      shuffled := shuffled[..idx] + shuffled[idx + 1..];
    }
  }

  // The end of the group of ties that starts at i.
  method GroupEnd(reputation: Reputation, s: seq<NodeInfo>, i: nat) returns (j: nat)
    requires i < |s|
    ensures i < j <= |s| && forall k :: i <= k < j ==> Tied(reputation, s[k], s[i])
  {
    j := i + 1;
    while j < |s| && Tied(reputation, s[j], s[i])
      invariant i < j <= |s| && forall k :: i <= k < j ==> Tied(reputation, s[k], s[i])
    {
      j := j + 1;
    }
  }

  // Element by element as good as the other list.
  ghost predicate TiedThroughout(reputation: Reputation, a: seq<NodeInfo>, b: seq<NodeInfo>) {
    |a| == |b| && forall k :: 0 <= k < |a| ==> Tied(reputation, a[k], b[k])
  }

  lemma {:induction false} GroupStaysTied(reputation: Reputation, s: seq<NodeInfo>, i: nat, j: nat,
      group: seq<NodeInfo>)
    requires i < j <= |s| && forall k :: i <= k < j ==> Tied(reputation, s[k], s[i])
    requires |group| == j - i && multiset(group) == multiset(s[i..j])
    ensures TiedThroughout(reputation, group, s[i..j])
  {
    forall k | 0 <= k < |group| ensures Tied(reputation, group[k], s[i..j][k]) {
      assert group[k] in multiset(group);
      assert group[k] in s[i..j];
    }
  }

  lemma {:induction false} NothingIsTied(reputation: Reputation)
    ensures TiedThroughout(reputation, [], [])
  {
  }

  lemma {:induction false} AppendGroup(
      reputation: Reputation, s: seq<NodeInfo>, i: nat, j: nat, ranked: seq<NodeInfo>, group: seq<NodeInfo>)
    requires i <= j <= |s| && multiset(ranked) == multiset(s[..i]) && multiset(group) == multiset(s[i..j])
    requires TiedThroughout(reputation, ranked, s[..i]) && TiedThroughout(reputation, group, s[i..j])
    ensures multiset(ranked + group) == multiset(s[..j]) && TiedThroughout(reputation, ranked + group, s[..j])
  {
    hide Score;
    assert s[..j] == s[..i] + s[i..j];
  }

  method RankCandidates(nodes: seq<NodeInfo>, reputation: Reputation, random: nat -> real)
      returns (ranked: seq<NodeInfo>)
    requires InUnitInterval(random)
    ensures multiset(ranked) == multiset(nodes) && Ranked(reputation, ranked)
  {
    hide Score, AtLeast, Ranked, TiedThroughout, Sort;
    var sorted := Sort(reputation, nodes);
    SortSorts(reputation, nodes);
    ranked := [];
    var i, drawn := 0, 0;
    NothingIsTied(reputation);
    while i < |sorted|
      invariant 0 <= i <= |sorted|
      invariant multiset(ranked) == multiset(sorted[..i])
      invariant TiedThroughout(reputation, ranked, sorted[..i])
    {
      var j := GroupEnd(reputation, sorted, i);
      var group := sorted[i..j];
      if |group| > 1 {
        group, drawn := Shuffle(group, random, drawn);
      }
      GroupStaysTied(reputation, sorted, i, j, group);
      AppendGroup(reputation, sorted, i, j, ranked, group);
      ranked := ranked + group;
      i := j;
    }
    assert sorted[..i] == sorted;
    TiesKeepRank(reputation, ranked, sorted);
  }

  lemma {:induction false} TiesKeepRank(reputation: Reputation, a: seq<NodeInfo>, b: seq<NodeInfo>)
    requires TiedThroughout(reputation, a, b) && Ranked(reputation, b)
    ensures Ranked(reputation, a)
  {
  }

  // ---------------------------------------------------------------- selection

  datatype PipelineSelection = PipelineSelection(driver: NodeInfo, computeContributors: seq<NodeInfo>)

  predicate SameLocality(driver: NodeInfo, n: NodeInfo) {
    n.localityGroup.Some? && n.localityGroup == driver.localityGroup
  }

  function Filter(driver: NodeInfo, same: bool, s: seq<NodeInfo>): seq<NodeInfo> {
    if s == [] then [] else (if SameLocality(driver, s[0]) == same then [s[0]] else []) + Filter(driver, same, s[1..])
  }

  lemma {:induction false} FilterFacts(reputation: Reputation, driver: NodeInfo, same: bool, s: seq<NodeInfo>)
    requires Ranked(reputation, s)
    ensures Ranked(reputation, Filter(driver, same, s))
    ensures forall n :: n in Filter(driver, same, s) ==> n in s && SameLocality(driver, n) == same
  {
    if s != [] {
      var t := Filter(driver, same, s[1..]);
      FilterFacts(reputation, driver, same, s[1..]);
      if SameLocality(driver, s[0]) == same {
        if t != [] {
          assert t[0] in s[1..];
        }
        RankedCons(reputation, s[0], t);
      }
    }
  }

  lemma {:induction false} FiltersPartition(driver: NodeInfo, s: seq<NodeInfo>)
    ensures multiset(Filter(driver, true, s)) + multiset(Filter(driver, false, s)) == multiset(s)
  {
    if s != [] {
      FiltersPartition(driver, s[1..]);
      assert s == [s[0]] + s[1..];
    }
  }

  // Nodes of the input that the selection did not take.
  function Left(nodes: seq<NodeInfo>, p: PipelineSelection): multiset<NodeInfo> {
    multiset(nodes) - multiset([p.driver] + p.computeContributors)
  }

  // No node from elsewhere is taken while one from the driver's locality is left, and within each of the two classes
  // no node is passed over for one ranked below it.
  ghost predicate Fair(reputation: Reputation, driver: NodeInfo, taken: seq<NodeInfo>, left: multiset<NodeInfo>) {
    forall c, n :: c in taken && n in left ==>
      && (SameLocality(driver, n) ==> SameLocality(driver, c))
      && (SameLocality(driver, n) == SameLocality(driver, c) ==> AtLeast(reputation, c, n))
  }

  // The driver is a best node, and the selection is made of the required number of input nodes, fairly.
  ghost predicate RightChoice(nodes: seq<NodeInfo>, reputation: Reputation, required: nat, p: PipelineSelection) {
    && (forall n :: n in nodes ==> AtLeast(reputation, p.driver, n))
    && 1 + |p.computeContributors| == required
    && multiset([p.driver] + p.computeContributors) <= multiset(nodes)
    && Fair(reputation, p.driver, p.computeContributors, Left(nodes, p))
  }

  method SelectPipeline(nodes: seq<NodeInfo>, reputation: Reputation, required: nat, random: nat -> real)
    returns (r: Option<PipelineSelection>)
    requires required >= 1 && InUnitInterval(random)
    ensures r == None <==> |nodes| < required
    ensures r.Some? ==> RightChoice(nodes, reputation, required, r.value)
  {
    if |nodes| < required {
      return None;
    }
    var ranked := RankCandidates(nodes, reputation, random);
    SameSize(ranked, nodes);
    var driver := ranked[0];
    var remaining := ranked[1..];
    var sameLocality := Filter(driver, true, remaining);
    var otherCandidates := Filter(driver, false, remaining);
    var pool := sameLocality + otherCandidates;
    FiltersPartition(driver, remaining);
    SameSize(pool, remaining);
    var p := PipelineSelection(driver, pool[..required - 1]);
    PrefixIsRightChoice(nodes, reputation, required, ranked, p);
    return Some(p);
  }

  lemma {:induction false} SameSize(a: seq<NodeInfo>, b: seq<NodeInfo>)
    requires multiset(a) == multiset(b)
    ensures |a| == |b|
  {
    assert |multiset(a)| == |a| && |multiset(b)| == |b|;
  }

  function Pool(driver: NodeInfo, remaining: seq<NodeInfo>): seq<NodeInfo> {
    Filter(driver, true, remaining) + Filter(driver, false, remaining)
  }

  // Ahead in the pool: from the driver's locality, or of the same class and ranked at least as well.
  lemma {:induction false} PoolOrder(reputation: Reputation, driver: NodeInfo, remaining: seq<NodeInfo>, i: nat, j: nat)
    requires Ranked(reputation, remaining) && i < j < |Pool(driver, remaining)|
    ensures var c, n := Pool(driver, remaining)[i], Pool(driver, remaining)[j];
            && (SameLocality(driver, n) ==> SameLocality(driver, c))
            && (SameLocality(driver, n) == SameLocality(driver, c) ==> AtLeast(reputation, c, n))
  {
    FilterFacts(reputation, driver, true, remaining);
    FilterFacts(reputation, driver, false, remaining);
    var a, b := Filter(driver, true, remaining), Filter(driver, false, remaining);
    var c, n := (a + b)[i], (a + b)[j];
    if j < |a| {
      assert c == a[i] && n == a[j];
    } else {
      assert n == b[j - |a|];
      if i >= |a| {
        assert c == b[i - |a|];
      } else {
        assert c == a[i];
      }
    }
  }

  lemma {:induction false} PrefixIsRightChoice(
      nodes: seq<NodeInfo>, reputation: Reputation, required: nat, ranked: seq<NodeInfo>, p: PipelineSelection)
    requires multiset(ranked) == multiset(nodes) && Ranked(reputation, ranked) && 1 <= required <= |ranked|
    requires p.driver == ranked[0] && |Pool(p.driver, ranked[1..])| == |ranked| - 1
    requires p.computeContributors == Pool(p.driver, ranked[1..])[..required - 1]
    ensures RightChoice(nodes, reputation, required, p)
  {
    hide Score, AtLeast, Ranked, Fair, Filter, SameLocality;
    var pool, k := Pool(p.driver, ranked[1..]), required - 1;
    FiltersPartition(p.driver, ranked[1..]);
    SplitInput(nodes, ranked, pool, k);
    HeadIsBest(nodes, reputation, ranked);
    RankedTail(reputation, ranked);
    PoolIsFair(reputation, p.driver, ranked[1..], k);
  }

  lemma {:induction false} RankedTail(reputation: Reputation, s: seq<NodeInfo>)
    requires Ranked(reputation, s) && s != []
    ensures Ranked(reputation, s[1..])
  {
  }

  lemma {:induction false} PoolIsFair(reputation: Reputation, driver: NodeInfo, remaining: seq<NodeInfo>, k: nat)
    requires Ranked(reputation, remaining) && k <= |Pool(driver, remaining)|
    ensures Fair(reputation, driver, Pool(driver, remaining)[..k], multiset(Pool(driver, remaining)[k..]))
  {
    hide Score;
    var taken, left := Pool(driver, remaining)[..k], Pool(driver, remaining)[k..];
    forall c, n | c in taken && n in multiset(left)
      ensures SameLocality(driver, n) ==> SameLocality(driver, c)
      ensures SameLocality(driver, n) == SameLocality(driver, c) ==> AtLeast(reputation, c, n)
    {
      NoneSkipped(reputation, driver, remaining, k, c, n);
    }
  }

  lemma {:induction false} HeadIsBest(nodes: seq<NodeInfo>, reputation: Reputation, ranked: seq<NodeInfo>)
    requires multiset(ranked) == multiset(nodes) && Ranked(reputation, ranked) && ranked != []
    ensures forall n :: n in nodes ==> AtLeast(reputation, ranked[0], n)
  {
    hide Score;
    forall n | n in nodes ensures AtLeast(reputation, ranked[0], n) {
      assert n in multiset(nodes);
      var i :| 0 <= i < |ranked| && ranked[i] == n;
      assert i == 0 || AtLeast(reputation, ranked[0], ranked[i]);
    }
  }

  lemma {:induction false} NoneSkipped(
      reputation: Reputation, driver: NodeInfo, remaining: seq<NodeInfo>, k: nat, c: NodeInfo, n: NodeInfo)
    requires Ranked(reputation, remaining) && k <= |Pool(driver, remaining)|
    requires c in Pool(driver, remaining)[..k] && n in Pool(driver, remaining)[k..]
    ensures SameLocality(driver, n) ==> SameLocality(driver, c)
    ensures SameLocality(driver, n) == SameLocality(driver, c) ==> AtLeast(reputation, c, n)
  {
    hide Score;
    var pool := Pool(driver, remaining);
    var i :| 0 <= i < k && pool[i] == c;
    var j :| 0 <= j < |pool| - k && pool[k..][j] == n;
    assert pool[k + j] == n;
    PoolOrder(reputation, driver, remaining, i, k + j);
  }

  lemma {:induction false} SplitInput(nodes: seq<NodeInfo>, ranked: seq<NodeInfo>, pool: seq<NodeInfo>, k: nat)
    requires ranked != [] && k <= |pool|
    requires multiset(ranked) == multiset(nodes) && multiset(pool) == multiset(ranked[1..])
    ensures multiset([ranked[0]] + pool[..k]) <= multiset(nodes)
    ensures multiset(nodes) - multiset([ranked[0]] + pool[..k]) == multiset(pool[k..])
  {
    assert ranked == [ranked[0]] + ranked[1..];
    assert pool == pool[..k] + pool[k..];
  }

  // Nodes with distinct ids make a selection of distinct nodes.
  lemma {:induction false} SelectionIsDistinct(
      nodes: seq<NodeInfo>, reputation: Reputation, required: nat, p: PipelineSelection, i: nat, j: nat)
    requires RightChoice(nodes, reputation, required, p)
    requires forall a, b :: 0 <= a < b < |nodes| ==> nodes[a].nodeId != nodes[b].nodeId
    requires i < j < required
    ensures var all := [p.driver] + p.computeContributors; all[i].nodeId != all[j].nodeId
  {
    hide Score, AtLeast, Fair, SameLocality, Left;
    DrawnAreDistinct(nodes, [p.driver] + p.computeContributors, i, j);
  }

  lemma {:induction false} DrawnAreDistinct(nodes: seq<NodeInfo>, all: seq<NodeInfo>, i: nat, j: nat)
    requires multiset(all) <= multiset(nodes) && i < j < |all|
    requires forall a, b :: 0 <= a < b < |nodes| ==> nodes[a].nodeId != nodes[b].nodeId
    ensures all[i].nodeId != all[j].nodeId
  {
    NoDupMultiset(nodes);
    TwiceInMultiset(all, i, j);
    assert all[i] in multiset(all) && all[j] in multiset(all);
    assert all[i] in nodes && all[j] in nodes;
  }

  // ---------------------------------------------------------------- what a choice means in numbers

  function StatsOf(reputation: Reputation, id: string): NodeStats {
    if id in reputation then reputation[id] else NodeStats(0, 0)
  }

  // A node whose results agreed more often and disagreed no more often than another's scores higher; one about which
  // nothing is known scores a half.
  lemma {:induction false} ScoreRewards(reputation: Reputation, a: string, b: string)
    ensures var s, t := StatsOf(reputation, a), StatsOf(reputation, b);
            && (s.agreements >= t.agreements && s.disagreements <= t.disagreements ==>
                  Score(reputation, a) >= Score(reputation, b))
            && (s.agreements >= t.agreements && s.disagreements <= t.disagreements && s != t ==>
                  Score(reputation, a) > Score(reputation, b))
            && (s == NodeStats(0, 0) ==> Score(reputation, a) == 0.5)
            && 0.0 < Score(reputation, a) < 1.0
  {
    var s, t := StatsOf(reputation, a), StatsOf(reputation, b);
    var p, q, u, v := s.agreements + 1, s.disagreements + 1, t.agreements + 1, t.disagreements + 1;
    CompareShares(p, p + q, u, u + v);
    CompareShares(p, p + q, 0, 1);
    CompareShares(1, 1, p, p + q);
    if s.agreements >= t.agreements && s.disagreements <= t.disagreements {
      Products(p, q, u, v);
    }
    assert s == NodeStats(0, 0) ==> 1 as real / 2 as real == 0.5;
  }

  // Shares compare as their cross products do.
  lemma {:induction false} CompareShares(a: nat, b: nat, c: nat, d: nat)
    requires b > 0 && d > 0
    ensures a * d > c * b ==> a as real / b as real > c as real / d as real
    ensures a * d >= c * b ==> a as real / b as real >= c as real / d as real
  {
    var x, y := a as real / b as real, c as real / d as real;
    var k := b as real * d as real;
    Scaled(a as real, b as real, d as real);
    Scaled(c as real, d as real, b as real);
    assert x * k == (a * d) as real && y * k == (c * b) as real;
    ScalesDown(x, y, k);
  }

  lemma {:induction false} Scaled(a: real, b: real, d: real)
    requires b > 0.0
    ensures a / b * (b * d) == a * d && a / b * (d * b) == a * d
  {
    assert a / b * b == a;
    assert a / b * (b * d) == (a / b * b) * d;
    assert d * b == b * d;
  }

  lemma {:induction false} Products(p: nat, q: nat, u: nat, v: nat)
    requires p >= u >= 1 && 1 <= q <= v
    ensures p * (u + v) >= u * (p + q) && ((p, q) != (u, v) ==> p * (u + v) > u * (p + q))
  {
    assert p * (u + v) - u * (p + q) == p * v - u * q == (p - u) * v + u * (v - q);
  }

  lemma {:induction false} ScalesDown(x: real, y: real, k: real)
    requires k > 0.0
    ensures x * k > y * k ==> x > y
    ensures x * k >= y * k ==> x >= y
  {
  }

  // What the selection promises in numbers. The driver has the best score, and the most memory among those of its
  // score, unknown memory counting as none. A node that was left out would have served no better: if it shares the
  // driver's locality group, so do all contributors, and within its class none of them has a lower score, or the same
  // and less memory.
  lemma {:induction false} ChoiceInNumbers(nodes: seq<NodeInfo>, reputation: Reputation, required: nat,
      p: PipelineSelection, n: NodeInfo)
    requires RightChoice(nodes, reputation, required, p)
    ensures n in nodes ==>
              var x, y := Score(reputation, p.driver.nodeId), Score(reputation, n.nodeId);
              x > y || (x == y && (n.availableMemoryMb.Some? ==>
                                     n.availableMemoryMb.value <= 0
                                     || (p.driver.availableMemoryMb.Some?
                                         && p.driver.availableMemoryMb.value >= n.availableMemoryMb.value)))
    ensures n in Left(nodes, p) ==> forall c :: c in p.computeContributors ==>
              var near := n.localityGroup.Some? && n.localityGroup == p.driver.localityGroup;
              var close := c.localityGroup.Some? && c.localityGroup == p.driver.localityGroup;
              var x, y := Score(reputation, c.nodeId), Score(reputation, n.nodeId);
              (near ==> close) && (near == close ==> x > y || (x == y && Memory(c) >= Memory(n)))
  {
    hide Score, Left;
    if n in nodes {
      assert AtLeast(reputation, p.driver, n);
    }
  }
}
