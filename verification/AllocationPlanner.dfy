// The pure half of the pool manager (coordinator/src/pipeline_pool_manager.ts): how many pipelines a
// model wants, and which idle launchers go to which model in one reconciliation tick.
module AllocationPlanner {
  import opened Launchers
  import opened Seqs

  datatype PoolDemandSnapshot = PoolDemandSnapshot(modelId: string, demand: nat, currentCount: nat, desiredCount: nat)

  datatype PipelineClaim = PipelineClaim(modelId: string, launcher: LauncherInfo)

  // ---------------------------------------------------------------- desired count

  function Ceil(x: real): int {
    -((-x).Floor)
  }

  function Max(a: int, b: int): int { if a >= b then a else b }

  function Min(a: int, b: int): int { if a <= b then a else b }

  // Zero for a single-node model; otherwise the least count of at least one whose capacity covers the
  // demand, cut off at the configured ceiling (the floor of one wins over a ceiling below one).
  function DesiredPipelineCount(demand: nat, maxPipelines: int, required: int, perPipeline: real): (r: nat)
    requires perPipeline > 0.0
    ensures required <= 1 ==> r == 0
    ensures required > 1 ==> 1 <= r <= Max(1, maxPipelines)
    ensures required > 1 && r < maxPipelines ==> r as real * perPipeline >= demand as real
    ensures required > 1 && r > 1 ==> (r - 1) as real * perPipeline < demand as real
  {
    if required <= 1 then 0
    else
      var q := demand as real / perPipeline;
      var r := Max(1, Min(Ceil(q), maxPipelines));
      DesiredCountFacts(demand as real, perPipeline, q, r);
      r
  }

  lemma {:induction false} DesiredCountFacts(demand: real, perPipeline: real, q: real, r: int)
    requires perPipeline > 0.0 && q == demand / perPipeline
    ensures r >= Ceil(q) ==> r as real * perPipeline >= demand
    ensures r <= Ceil(q) ==> (r - 1) as real * perPipeline < demand
  {
    assert q * perPipeline == demand;
    var below, above := (r - 1) as real, r as real;
    CeilBounds(q, r);
    ScaleOrder(q, above, perPipeline);
    ScaleOrder(below, q, perPipeline);
    assert r <= Ceil(q) ==> below * perPipeline < demand;
  }

  lemma {:induction false} CeilBounds(q: real, r: int)
    ensures r >= Ceil(q) ==> r as real >= q
    ensures r <= Ceil(q) ==> (r - 1) as real < q
  {
  }

  lemma {:induction false} ScaleOrder(a: real, b: real, k: real)
    requires k > 0.0
    ensures a < b ==> a * k < b * k
    ensures a <= b ==> a * k <= b * k
  {
  }

  // Exactly the numbers of pipelines from the desired one on meet the demand, as far as the ceiling allows.
  lemma {:induction false} DesiredIsLeast(demand: nat, maxPipelines: int, required: int, perPipeline: real, n: int)
    requires perPipeline > 0.0 && required > 1 && maxPipelines >= 1
    ensures n >= 1 && (n >= maxPipelines || n as real * perPipeline >= demand as real)
       <==> n >= DesiredPipelineCount(demand, maxPipelines, required, perPipeline)
  {
    var r := DesiredPipelineCount(demand, maxPipelines, required, perPipeline);
    if n >= r {
      NoFewerSuffice(r as real, n as real, perPipeline, demand as real);
    } else if n >= 1 {
      TooFewFail(n as real, (r - 1) as real, perPipeline, demand as real);
    }
  }

  lemma {:induction false} NoFewerSuffice(a: real, b: real, k: real, wanted: real)
    requires k > 0.0 && a <= b
    ensures a * k >= wanted ==> b * k >= wanted
  {
    ScaleOrder(a, b, k);
  }

  lemma {:induction false} TooFewFail(a: real, b: real, k: real, wanted: real)
    requires k > 0.0 && a <= b
    ensures b * k < wanted ==> a * k < wanted
  {
    ScaleOrder(a, b, k);
  }

  // ---------------------------------------------------------------- sorting by demand

  function Deficit(s: PoolDemandSnapshot): int {
    s.desiredCount - s.currentCount
  }

  function UnderProvisioned(s: seq<PoolDemandSnapshot>): seq<PoolDemandSnapshot> {
    if s == [] then [] else (if Deficit(s[0]) > 0 then [s[0]] else []) + UnderProvisioned(s[1..])
  }

  // Insertion that keeps earlier elements of equal demand first: a stable descending sort.
  function InsertByDemand(x: PoolDemandSnapshot, s: seq<PoolDemandSnapshot>): seq<PoolDemandSnapshot> {
    if s == [] || x.demand >= s[0].demand then [x] + s else [s[0]] + InsertByDemand(x, s[1..])
  }

  function SortByDemand(s: seq<PoolDemandSnapshot>): seq<PoolDemandSnapshot> {
    if s == [] then [] else InsertByDemand(s[0], SortByDemand(s[1..]))
  }

  ghost predicate Descending(s: seq<PoolDemandSnapshot>) {
    forall i, j :: 0 <= i < j < |s| ==> s[i].demand >= s[j].demand
  }

  lemma {:induction false} InsertByDemandElements(x: PoolDemandSnapshot, s: seq<PoolDemandSnapshot>)
    ensures multiset(InsertByDemand(x, s)) == multiset(s) + multiset{x}
  {
    if s != [] && x.demand < s[0].demand {
      InsertByDemandElements(x, s[1..]);
      assert s == [s[0]] + s[1..];
    }
  }

  lemma {:induction false} InsertByDemandDescends(x: PoolDemandSnapshot, s: seq<PoolDemandSnapshot>)
    requires Descending(s)
    ensures Descending(InsertByDemand(x, s))
  {
    if s != [] && x.demand < s[0].demand {
      var t := InsertByDemand(x, s[1..]);
      InsertByDemandDescends(x, s[1..]);
      assert t[0] == x || (|s| > 1 && t[0] == s[1]);
      DescendingCons(s[0], t);
    } else {
      DescendingCons(x, s);
    }
  }

  lemma {:induction false} DescendingCons(x: PoolDemandSnapshot, s: seq<PoolDemandSnapshot>)
    requires Descending(s) && (s != [] ==> x.demand >= s[0].demand)
    ensures Descending([x] + s)
  {
  }

  lemma {:induction false} SortByDemandFacts(s: seq<PoolDemandSnapshot>)
    ensures Descending(SortByDemand(s))
    ensures multiset(SortByDemand(s)) == multiset(s)
  {
    if s != [] {
      assert s == [s[0]] + s[1..];
      SortByDemandFacts(s[1..]);
      InsertByDemandElements(s[0], SortByDemand(s[1..]));
      InsertByDemandDescends(s[0], SortByDemand(s[1..]));
    }
  }

  function WithDemand(s: seq<PoolDemandSnapshot>, demand: nat): seq<PoolDemandSnapshot> {
    if s == [] then [] else (if s[0].demand == demand then [s[0]] else []) + WithDemand(s[1..], demand)
  }

  lemma {:induction false} InsertIsStable(x: PoolDemandSnapshot, s: seq<PoolDemandSnapshot>, demand: nat)
    requires Descending(s)
    ensures WithDemand(InsertByDemand(x, s), demand)
        == (if x.demand == demand then [x] else []) + WithDemand(s, demand)
  {
    if s == [] || x.demand >= s[0].demand {
      WithDemandCons(x, s, demand);
    } else {
      InsertIsStable(x, s[1..], demand);
      WithDemandCons(s[0], InsertByDemand(x, s[1..]), demand);
      var head := if s[0].demand == demand then [s[0]] else [];
      assert x.demand == demand ==> head == [];
      assert head + WithDemand(InsertByDemand(x, s[1..]), demand)
          == (if x.demand == demand then [x] else []) + (head + WithDemand(s[1..], demand));
    }
  }

  lemma {:induction false} WithDemandCons(x: PoolDemandSnapshot, s: seq<PoolDemandSnapshot>, demand: nat)
    ensures WithDemand([x] + s, demand) == (if x.demand == demand then [x] else []) + WithDemand(s, demand)
  {
    assert ([x] + s)[1..] == s;
  }

  // Models of equal demand keep their order.
  lemma {:induction false} SortByDemandIsStable(s: seq<PoolDemandSnapshot>, demand: nat)
    ensures WithDemand(SortByDemand(s), demand) == WithDemand(s, demand)
  {
    if s != [] {
      SortByDemandIsStable(s[1..], demand);
      SortByDemandFacts(s[1..]);
      InsertIsStable(s[0], SortByDemand(s[1..]), demand);
    }
  }

  lemma {:induction false} UnderProvisionedFacts(s: seq<PoolDemandSnapshot>)
    ensures multiset(UnderProvisioned(s)) <= multiset(s)
    ensures forall x :: x in UnderProvisioned(s) <==> x in s && Deficit(x) > 0
  {
    if s != [] {
      assert s == [s[0]] + s[1..];
      UnderProvisionedFacts(s[1..]);
    }
  }

  // One snapshot per model, stated so that it survives filtering and reordering.
  ghost predicate DistinctModels(s: seq<PoolDemandSnapshot>) {
    && (forall a, b :: a in s && b in s && a.modelId == b.modelId ==> a == b)
    && (forall a :: multiset(s)[a] <= 1)
  }

  lemma {:induction false} DistinctModelsAt(s: seq<PoolDemandSnapshot>, i: int, j: int)
    requires DistinctModels(s) && 0 <= i < j < |s|
    ensures s[i].modelId != s[j].modelId
  {
    TwiceInMultiset(s, i, j);
  }

  // ---------------------------------------------------------------- what a plan promises

  function CountFor(claims: seq<PipelineClaim>, modelId: string): nat {
    if claims == [] then 0
    else CountFor(claims[..|claims| - 1], modelId) + (if claims[|claims| - 1].modelId == modelId then 1 else 0)
  }

  lemma {:induction false} CountForNone(claims: seq<PipelineClaim>, modelId: string)
    requires forall k :: 0 <= k < |claims| ==> claims[k].modelId != modelId
    ensures CountFor(claims, modelId) == 0
  {
    if claims != [] {
      CountForNone(claims[..|claims| - 1], modelId);
    }
  }

  lemma {:induction false} CountForHead(claims: seq<PipelineClaim>, modelId: string)
    requires claims != []
    ensures CountFor(claims, modelId) == (if claims[0].modelId == modelId then 1 else 0)
        + CountFor(claims[1..], modelId)
  {
    var n := |claims| - 1;
    if n > 0 {
      CountForHead(claims[..n], modelId);
      assert claims[..n][1..] == claims[1..][..n - 1];
    }
  }

  // No claim touches a launcher already in use, and no two claims touch one launcher.
  ghost predicate ClaimsAreFree(claims: seq<PipelineClaim>, claimed: set<string>) {
    && (forall k :: 0 <= k < |claims| ==> !IsLauncherClaimed(claimed, claims[k].launcher))
    && (forall j, k :: 0 <= j < k < |claims| ==> !Conflict(claims[j].launcher, claims[k].launcher))
  }

  // Every claim serves a model of at least this demand.
  ghost predicate ServedAtLeast(claim: PipelineClaim, snapshots: seq<PoolDemandSnapshot>, demand: nat) {
    exists t :: t in snapshots && Deficit(t) > 0 && t.modelId == claim.modelId && t.demand >= demand
  }

  // The launcher was busy before the plan, or the plan gave it to a model of at least this demand.
  ghost predicate Unavailable(l: LauncherInfo, claims: seq<PipelineClaim>, claimed: set<string>,
                              snapshots: seq<PoolDemandSnapshot>, demand: nat) {
    || IsLauncherClaimed(claimed, l)
    || exists k :: 0 <= k < |claims| && Conflict(claims[k].launcher, l) && ServedAtLeast(claims[k], snapshots, demand)
  }

  ghost predicate PlanSound(snapshots: seq<PoolDemandSnapshot>, launchersFor: string -> seq<LauncherInfo>,
                            claimed: set<string>, claims: seq<PipelineClaim>) {
    && ClaimsAreFree(claims, claimed)
    && (forall k :: 0 <= k < |claims| ==>
          claims[k].launcher in launchersFor(claims[k].modelId) && ServedAtLeast(claims[k], snapshots, 0))
    && (DistinctModels(snapshots) ==>
          forall s :: s in snapshots ==> CountFor(claims, s.modelId) <= Max(0, Deficit(s)))
  }

  // Greedy and free of priority inversion: a model left short has no launcher it could still have had.
  ghost predicate PlanMaximal(snapshots: seq<PoolDemandSnapshot>, launchersFor: string -> seq<LauncherInfo>,
                              claimed: set<string>, claims: seq<PipelineClaim>) {
    forall s, l :: s in snapshots && CountFor(claims, s.modelId) < Deficit(s) && l in launchersFor(s.modelId)
      ==> Unavailable(l, claims, claimed, snapshots, s.demand)
  }

  // ---------------------------------------------------------------- planAllocations

  ghost function ClaimedNames(claims: seq<PipelineClaim>): set<string> {
    if claims == [] then {} else ClaimedNames(claims[..|claims| - 1]) + Names(claims[|claims| - 1].launcher)
  }

  lemma {:induction false} NamesOfClaims(claims: seq<PipelineClaim>, k: nat)
    requires k < |claims|
    ensures Names(claims[k].launcher) <= ClaimedNames(claims)
  {
    if k < |claims| - 1 {
      NamesOfClaims(claims[..|claims| - 1], k);
    }
  }

  lemma {:induction false} ClaimOfName(claims: seq<PipelineClaim>, l: LauncherInfo) returns (k: nat)
    requires IsLauncherClaimed(ClaimedNames(claims), l)
    ensures k < |claims| && Conflict(claims[k].launcher, l)
  {
    k := |claims| - 1;
    if !Conflict(claims[k].launcher, l) {
      k := ClaimOfName(claims[..k], l);
    }
  }

  lemma {:induction false} ClaimOne(was: seq<PipelineClaim>, claim: PipelineClaim, before: set<string>)
    requires ClaimsAreFree(was, before)
    requires !IsLauncherClaimed(before + ClaimedNames(was), claim.launcher)
    ensures ClaimsAreFree(was + [claim], before)
    ensures ClaimedNames(was + [claim]) == ClaimedNames(was) + Names(claim.launcher)
    ensures forall m :: CountFor(was + [claim], m) == CountFor(was, m) + (if claim.modelId == m then 1 else 0)
  {
    var claims := was + [claim];
    assert claims[..|claims| - 1] == was;
    forall k | 0 <= k < |was| ensures !Conflict(was[k].launcher, claim.launcher) {
      NamesOfClaims(was, k);
    }
  }

  lemma {:induction false} NoClaims(claimed: set<string>)
    ensures ClaimsAreFree([], claimed) && claimed + ClaimedNames([]) == claimed
  {
  }

  // One model's turn: its free launchers in order, until its deficit is filled.
  function FillFrom(modelId: string, deficit: nat, launchers: seq<LauncherInfo>,
      claimed: set<string>): seq<PipelineClaim> {
    if launchers == [] || deficit == 0 then []
    else
      var l, rest := launchers[0], launchers[1..];
      if IsLauncherClaimed(claimed, l) then FillFrom(modelId, deficit, rest, claimed)
      else [PipelineClaim(modelId, l)] + FillFrom(modelId, deficit - 1, rest, claimed + Names(l))
  }

  // The turns of the models, one after the other.
  ghost function PlanFrom(order: seq<PoolDemandSnapshot>, launchersFor: string -> seq<LauncherInfo>,
      claimed: set<string>): seq<PipelineClaim>
  {
    if order == [] then []
    else
      var s := order[0];
      var turn := FillFrom(s.modelId, Max(0, Deficit(s)), launchersFor(s.modelId), claimed);
      turn + PlanFrom(order[1..], launchersFor, claimed + ClaimedNames(turn))
  }

  // The plan: the busiest model first.
  ghost function PlanOf(snapshots: seq<PoolDemandSnapshot>, launchersFor: string -> seq<LauncherInfo>,
      claimed: set<string>): seq<PipelineClaim>
  {
    PlanFrom(SortByDemand(UnderProvisioned(snapshots)), launchersFor, claimed)
  }

  lemma {:induction false} ClaimedNamesAppend(a: seq<PipelineClaim>, b: seq<PipelineClaim>)
    ensures ClaimedNames(a + b) == ClaimedNames(a) + ClaimedNames(b)
  {
    if b == [] {
      assert a + b == a;
    } else {
      var n := |b| - 1;
      assert (a + b)[..|a + b| - 1] == a + b[..n];
      ClaimedNamesAppend(a, b[..n]);
    }
  }

  // What one model's turn adds to earlier claims.
  lemma {:induction false} FillFromFacts(modelId: string, deficit: nat, launchers: seq<LauncherInfo>,
      claimed0: set<string>,
                                         claims0: seq<PipelineClaim>, before: set<string>)
    requires claimed0 == before + ClaimedNames(claims0)
    requires ClaimsAreFree(claims0, before)
    ensures var claims := claims0 + FillFrom(modelId, deficit, launchers, claimed0);
            && ClaimsAreFree(claims, before)
            && (forall k :: |claims0| <= k < |claims|
                  ==> claims[k].modelId == modelId && claims[k].launcher in launchers)
            && (forall m :: m != modelId ==> CountFor(claims, m) == CountFor(claims0, m))
            && CountFor(claims0, modelId) <= CountFor(claims, modelId) <= CountFor(claims0, modelId) + deficit
            && (CountFor(claims, modelId) < CountFor(claims0, modelId) + deficit
                ==> forall l :: l in launchers ==> IsLauncherClaimed(before + ClaimedNames(claims), l))
    decreases |launchers|
  {
    hide ClaimsAreFree, ClaimedNames, CountFor;
    var turn := FillFrom(modelId, deficit, launchers, claimed0);
    if launchers == [] || deficit == 0 {
      assert claims0 + turn == claims0;
    } else {
      var l, later := launchers[0], launchers[1..];
      assert launchers == [l] + later;
      ClaimedNamesAppend(claims0, turn);
      if IsLauncherClaimed(claimed0, l) {
        FillFromFacts(modelId, deficit, later, claimed0, claims0, before);
      } else {
        var c := PipelineClaim(modelId, l);
        ClaimOne(claims0, c, before);
        FillFromFacts(modelId, deficit - 1, later, claimed0 + Names(l), claims0 + [c], before);
        var rest := FillFrom(modelId, deficit - 1, later, claimed0 + Names(l));
        assert claims0 + turn == claims0 + [c] + rest;
        ClaimedNamesAppend(claims0 + [c], rest);
      }
    }
  }

  // One model's turn: walk its launchers until its deficit is filled.
  method FillDeficit(modelId: string, deficit: nat, launchers: seq<LauncherInfo>, claimed0: set<string>,
                     claims0: seq<PipelineClaim>)
    returns (claimed: set<string>, claims: seq<PipelineClaim>)
    ensures claims == claims0 + FillFrom(modelId, deficit, launchers, claimed0)
    ensures claimed == claimed0 + ClaimedNames(FillFrom(modelId, deficit, launchers, claimed0))
  {
    hide ClaimedNames;
    claimed, claims := claimed0, claims0;
    var left := deficit;
    var j := 0;
    ghost var turn: seq<PipelineClaim> := [];
    NoClaims(claimed0);
    assert launchers[0..] == launchers;
    while j < |launchers| && left > 0
      invariant 0 <= j <= |launchers| && 0 <= left <= deficit
      invariant claims == claims0 + turn && claimed == claimed0 + ClaimedNames(turn)
      invariant turn + FillFrom(modelId, left, launchers[j..], claimed)
          == FillFrom(modelId, deficit, launchers, claimed0)
    {
      var l := launchers[j];
      assert launchers[j..][1..] == launchers[j + 1..];
      if !IsLauncherClaimed(claimed, l) {
        var c := PipelineClaim(modelId, l);
        GrowTurn(claims0, turn, c, FillFrom(modelId, left - 1, launchers[j + 1..], claimed + Names(l)), claimed0);
        claims := claims + [c];
        claimed := claimed + Names(l);
        turn := turn + [c];
        left := left - 1;
      }
      j := j + 1;
    }
    assert turn + [] == turn;
  }

  // A launcher is passed over only because it is busy or went to this very turn.
  lemma {:induction false} FillFromInOrder(modelId: string, deficit: nat, launchers: seq<LauncherInfo>,
      claimed: set<string>, j: nat, k: nat)
    requires NoDup(launchers) && j < k < |launchers|
    requires PipelineClaim(modelId, launchers[k]) in FillFrom(modelId, deficit, launchers, claimed)
    ensures IsLauncherClaimed(claimed, launchers[j])
         || PipelineClaim(modelId, launchers[j]) in FillFrom(modelId, deficit, launchers, claimed)
         || exists l :: PipelineClaim(modelId, l) in FillFrom(modelId, deficit, launchers, claimed)
                        && Conflict(l, launchers[j])
  {
    var l, rest := launchers[0], launchers[1..];
    assert launchers[k] == rest[k - 1] && launchers[k] != l;
    if IsLauncherClaimed(claimed, l) {
      if j > 0 {
        FillFromInOrder(modelId, deficit, rest, claimed, j - 1, k - 1);
      }
    } else if j > 0 {
      FillFromInOrder(modelId, deficit - 1, rest, claimed + Names(l), j - 1, k - 1);
      if IsLauncherClaimed(claimed + Names(l), launchers[j]) && !IsLauncherClaimed(claimed, launchers[j]) {
        assert Conflict(l, launchers[j]);
      }
    }
  }

  lemma {:induction false} GrowTurn(claims: seq<PipelineClaim>, turn: seq<PipelineClaim>, c: PipelineClaim,
                                    later: seq<PipelineClaim>, claimed: set<string>)
    ensures claims + turn + [c] == claims + (turn + [c]) && turn + ([c] + later) == turn + [c] + later
    ensures claimed + ClaimedNames(turn) + Names(c.launcher) == claimed + ClaimedNames(turn + [c])
  {
    assert (turn + [c])[..|turn|] == turn;
  }

  method PlanAllocations(snapshots: seq<PoolDemandSnapshot>, launchersFor: string -> seq<LauncherInfo>,
      claimedIds: set<string>)
    returns (claims: seq<PipelineClaim>)
    ensures claims == PlanOf(snapshots, launchersFor, claimedIds)
    ensures PlanSound(snapshots, launchersFor, claimedIds, claims)
    ensures PlanMaximal(snapshots, launchersFor, claimedIds, claims)
  {
    hide SortByDemand, UnderProvisioned, FillFrom, ClaimedNames, PlanSound, PlanMaximal;
    var claimed := claimedIds;
    claims := [];
    var order := SortByDemand(UnderProvisioned(snapshots));
    OrderFacts(snapshots);
    var i := 0;
    assert order[0..] == order;
    assert [] + PlanFrom(order, launchersFor, claimedIds) == PlanFrom(order, launchersFor, claimedIds);
    while i < |order|
      invariant 0 <= i <= |order|
      invariant claims + PlanFrom(order[i..], launchersFor, claimed) == PlanFrom(order, launchersFor, claimedIds)
    {
      var snapshot := order[i];
      assert snapshot in order && order[i..][1..] == order[i + 1..];
      ghost var turn := FillFrom(snapshot.modelId, Deficit(snapshot), launchersFor(snapshot.modelId), claimed);
      ghost var later := PlanFrom(order[i + 1..], launchersFor, claimed + ClaimedNames(turn));
      assert claims + (turn + later) == claims + turn + later;
      claimed, claims := FillDeficit(snapshot.modelId, Deficit(snapshot), launchersFor(snapshot.modelId), claimed,
          claims);
      i := i + 1;
    }
    assert claims + [] == claims;
    PlanOfIsGreedy(snapshots, launchersFor, claimedIds);
  }

  // What holds once the first i models had their turn.
  ghost predicate PlannedUpTo(snapshots: seq<PoolDemandSnapshot>, launchersFor: string -> seq<LauncherInfo>,
      claimedIds: set<string>,
                              order: seq<PoolDemandSnapshot>, i: nat, claims: seq<PipelineClaim>)
    requires i <= |order|
  {
    && ClaimsAreFree(claims, claimedIds)
    && (forall k :: 0 <= k < |claims| ==> claims[k].launcher in launchersFor(claims[k].modelId))
    && (forall k :: 0 <= k < |claims| ==> HasOrigin(order, i, claims[k].modelId))
    && (DistinctModels(snapshots) ==>
          forall o :: 0 <= o < i ==> CountFor(claims, order[o].modelId) <= Deficit(order[o]))
    && (forall o, l :: 0 <= o < i && CountFor(claims, order[o].modelId) < Deficit(order[o])
          && l in launchersFor(order[o].modelId)
          ==> Unavailable(l, claims, claimedIds, snapshots, order[o].demand))
  }

  lemma {:induction false} TurnKeeps(snapshots: seq<PoolDemandSnapshot>, launchersFor: string -> seq<LauncherInfo>,
      claimedIds: set<string>,
                                     order: seq<PoolDemandSnapshot>, i: nat, was: seq<PipelineClaim>)
    requires i < |order| && Descending(order) && Deficit(order[i]) > 0
    requires forall x :: x in order <==> x in snapshots && Deficit(x) > 0
    requires DistinctModels(snapshots) ==> DistinctModels(order)
    requires PlannedUpTo(snapshots, launchersFor, claimedIds, order, i, was)
    ensures var s := order[i];
            var turn := FillFrom(s.modelId, Deficit(s), launchersFor(s.modelId), claimedIds + ClaimedNames(was));
            PlannedUpTo(snapshots, launchersFor, claimedIds, order, i + 1, was + turn)
  {
    hide DistinctModels, Descending, Unavailable, HasOrigin, ClaimsAreFree, ClaimedNames, CountFor, FillFrom;
    var s := order[i];
    var claims := was + FillFrom(s.modelId, Deficit(s), launchersFor(s.modelId), claimedIds + ClaimedNames(was));
    FillFromFacts(s.modelId, Deficit(s), launchersFor(s.modelId), claimedIds + ClaimedNames(was), was, claimedIds);
    TurnOrigins(order, i, was, claims);
    if DistinctModels(snapshots) {
      TurnCounts(order, i, was, claims);
    }
    forall o, l | 0 <= o <= i && CountFor(claims, order[o].modelId) < Deficit(order[o])
        && l in launchersFor(order[o].modelId)
      ensures Unavailable(l, claims, claimedIds, snapshots, order[o].demand)
    {
      if o < i {
        StaysUnavailable(l, was, claims, claimedIds, snapshots, order[o].demand);
      } else {
        TurnUnavailable(snapshots, claimedIds, order, i, claims, l);
      }
    }
  }

  // The plan is sound, and greedy without priority inversion.
  lemma {:induction false} PlanOfIsGreedy(snapshots: seq<PoolDemandSnapshot>,
      launchersFor: string -> seq<LauncherInfo>, claimedIds: set<string>)
    ensures PlanSound(snapshots, launchersFor, claimedIds, PlanOf(snapshots, launchersFor, claimedIds))
    ensures PlanMaximal(snapshots, launchersFor, claimedIds, PlanOf(snapshots, launchersFor, claimedIds))
  {
    var order := SortByDemand(UnderProvisioned(snapshots));
    OrderFacts(snapshots);
    NoClaims(claimedIds);
    assert [] + PlanOf(snapshots, launchersFor, claimedIds) == PlanOf(snapshots, launchersFor, claimedIds);
    RestOfPlan(snapshots, launchersFor, claimedIds, order, 0, []);
  }

  lemma {:induction false} RestOfPlan(snapshots: seq<PoolDemandSnapshot>, launchersFor: string -> seq<LauncherInfo>,
      claimedIds: set<string>,
                                      order: seq<PoolDemandSnapshot>, i: nat, was: seq<PipelineClaim>)
    requires i <= |order| && Descending(order)
    requires forall x :: x in order <==> x in snapshots && Deficit(x) > 0
    requires DistinctModels(snapshots) ==> DistinctModels(order)
    requires PlannedUpTo(snapshots, launchersFor, claimedIds, order, i, was)
    ensures var plan := was + PlanFrom(order[i..], launchersFor, claimedIds + ClaimedNames(was));
            PlanSound(snapshots, launchersFor, claimedIds, plan)
                && PlanMaximal(snapshots, launchersFor, claimedIds, plan)
    decreases |order| - i
  {
    hide DistinctModels, Descending, Unavailable, HasOrigin, ClaimsAreFree, ClaimedNames, CountFor, FillFrom,
        PlanSound, PlanMaximal;
    if i == |order| {
      assert was + [] == was;
      PlanDone(snapshots, launchersFor, claimedIds, order, was);
    } else {
      assert order[i] in order;
      var turn := NextTurn(order, i, launchersFor, claimedIds, was);
      TurnKeeps(snapshots, launchersFor, claimedIds, order, i, was);
      RestOfPlan(snapshots, launchersFor, claimedIds, order, i + 1, was + turn);
    }
  }

  lemma {:induction false} NextTurn(order: seq<PoolDemandSnapshot>, i: nat,
      launchersFor: string -> seq<LauncherInfo>, claimedIds: set<string>,
                                    was: seq<PipelineClaim>)
    returns (turn: seq<PipelineClaim>)
    requires i < |order| && Deficit(order[i]) > 0
    ensures turn == FillFrom(order[i].modelId, Deficit(order[i]), launchersFor(order[i].modelId),
        claimedIds + ClaimedNames(was))
    ensures was + PlanFrom(order[i..], launchersFor, claimedIds + ClaimedNames(was))
         == was + turn + PlanFrom(order[i + 1..], launchersFor, claimedIds + ClaimedNames(was + turn))
  {
    hide FillFrom, ClaimedNames;
    var s, claimed := order[i], claimedIds + ClaimedNames(was);
    turn := FillFrom(s.modelId, Deficit(s), launchersFor(s.modelId), claimed);
    assert order[i..][1..] == order[i + 1..];
    ClaimedNamesAppend(was, turn);
    assert claimedIds + ClaimedNames(was + turn) == claimed + ClaimedNames(turn);
    var later := PlanFrom(order[i + 1..], launchersFor, claimed + ClaimedNames(turn));
    assert was + (turn + later) == was + turn + later;
  }

  lemma {:induction false} OrderFacts(snapshots: seq<PoolDemandSnapshot>)
    ensures var order := SortByDemand(UnderProvisioned(snapshots));
            && Descending(order)
            && (forall x :: x in order <==> x in snapshots && Deficit(x) > 0)
            && (DistinctModels(snapshots) ==> DistinctModels(order))
  {
    var u := UnderProvisioned(snapshots);
    var order := SortByDemand(u);
    UnderProvisionedFacts(snapshots);
    SortByDemandFacts(u);
    assert forall x :: x in order <==> x in multiset(order);
    assert forall x :: x in u <==> x in multiset(u);
    assert forall x :: multiset(order)[x] <= multiset(snapshots)[x];
  }

  ghost predicate HasOrigin(order: seq<PoolDemandSnapshot>, i: nat, modelId: string)
    requires i <= |order|
  {
    exists o :: 0 <= o < i && order[o].modelId == modelId
  }

  // What one model's turn adds to the loop's promises: first where claims come from, ...
  lemma {:induction false} TurnOrigins(order: seq<PoolDemandSnapshot>, i: nat, was: seq<PipelineClaim>,
      claims: seq<PipelineClaim>)
    requires i < |order| && was <= claims
    requires forall k :: |was| <= k < |claims| ==> claims[k].modelId == order[i].modelId
    requires forall k :: 0 <= k < |was| ==> HasOrigin(order, i, was[k].modelId)
    ensures forall k :: 0 <= k < |claims| ==> HasOrigin(order, i + 1, claims[k].modelId)
  {
  }

  // ... then that nobody exceeds its deficit, ...
  lemma {:induction false} TurnCounts(order: seq<PoolDemandSnapshot>, i: nat, was: seq<PipelineClaim>,
      claims: seq<PipelineClaim>)
    requires i < |order| && DistinctModels(order)
    requires forall k :: 0 <= k < |was| ==> HasOrigin(order, i, was[k].modelId)
    requires forall m :: m != order[i].modelId ==> CountFor(claims, m) == CountFor(was, m)
    requires CountFor(claims, order[i].modelId) <= CountFor(was, order[i].modelId) + Deficit(order[i])
    requires forall o :: 0 <= o < i ==> CountFor(was, order[o].modelId) <= Deficit(order[o])
    ensures forall o :: 0 <= o <= i ==> CountFor(claims, order[o].modelId) <= Deficit(order[o])
  {
    forall o | 0 <= o < i ensures order[o].modelId != order[i].modelId {
      DistinctModelsAt(order, o, i);
    }
    forall k | 0 <= k < |was| ensures was[k].modelId != order[i].modelId {
      var o :| 0 <= o < i && order[o].modelId == was[k].modelId;
    }
    CountForNone(was, order[i].modelId);
  }

  // ... and that whoever is left short could not have been helped.
  lemma {:induction false} TurnUnavailable(snapshots: seq<PoolDemandSnapshot>, claimedIds: set<string>,
                        order: seq<PoolDemandSnapshot>, i: nat, claims: seq<PipelineClaim>, l: LauncherInfo)
    requires i < |order| && Descending(order)
    requires forall x :: x in order <==> x in snapshots && Deficit(x) > 0
    requires forall k :: 0 <= k < |claims| ==> HasOrigin(order, i + 1, claims[k].modelId)
    requires IsLauncherClaimed(claimedIds + ClaimedNames(claims), l)
    ensures Unavailable(l, claims, claimedIds, snapshots, order[i].demand)
  {
    if !IsLauncherClaimed(claimedIds, l) {
      var k := ClaimOfName(claims, l);
      var p :| 0 <= p <= i && order[p].modelId == claims[k].modelId;
      assert order[p] in order && order[p].demand >= order[i].demand;
    }
  }

  lemma {:induction false} StaysUnavailable(l: LauncherInfo, was: seq<PipelineClaim>, claims: seq<PipelineClaim>,
      claimed: set<string>,
                         snapshots: seq<PoolDemandSnapshot>, demand: nat)
    requires was <= claims && Unavailable(l, was, claimed, snapshots, demand)
    ensures Unavailable(l, claims, claimed, snapshots, demand)
  {
  }

  lemma {:induction false} PlanDone(snapshots: seq<PoolDemandSnapshot>, launchersFor: string -> seq<LauncherInfo>,
      claimedIds: set<string>,
                 order: seq<PoolDemandSnapshot>, claims: seq<PipelineClaim>)
    requires forall x :: x in order <==> x in snapshots && Deficit(x) > 0
    requires ClaimsAreFree(claims, claimedIds)
    requires forall k :: 0 <= k < |claims| ==> claims[k].launcher in launchersFor(claims[k].modelId)
    requires forall k :: 0 <= k < |claims| ==> HasOrigin(order, |order|, claims[k].modelId)
    requires DistinctModels(snapshots) ==>
               forall o :: 0 <= o < |order| ==> CountFor(claims, order[o].modelId) <= Deficit(order[o])
    requires forall o, l :: 0 <= o < |order| && CountFor(claims, order[o].modelId) < Deficit(order[o])
                            && l in launchersFor(order[o].modelId)
               ==> Unavailable(l, claims, claimedIds, snapshots, order[o].demand)
    ensures PlanSound(snapshots, launchersFor, claimedIds, claims)
    ensures PlanMaximal(snapshots, launchersFor, claimedIds, claims)
  {
    forall k | 0 <= k < |claims| ensures ServedAtLeast(claims[k], snapshots, 0) {
      var o :| 0 <= o < |order| && order[o].modelId == claims[k].modelId;
      assert order[o] in order;
    }
    if DistinctModels(snapshots) {
      forall s | s in snapshots ensures CountFor(claims, s.modelId) <= Max(0, Deficit(s)) {
        if s in order {
          var o :| 0 <= o < |order| && order[o] == s;
        } else {
          forall k | 0 <= k < |claims| ensures claims[k].modelId != s.modelId {
            var o :| 0 <= o < |order| && order[o].modelId == claims[k].modelId;
            assert order[o] in order;
          }
          CountForNone(claims, s.modelId);
        }
      }
    }
    forall s, l | s in snapshots && CountFor(claims, s.modelId) < Deficit(s) && l in launchersFor(s.modelId)
      ensures Unavailable(l, claims, claimedIds, snapshots, s.demand)
    {
      assert s in order;
      var o :| 0 <= o < |order| && order[o] == s;
    }
  }
}
