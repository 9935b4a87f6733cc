/** The market-matching use cases: picking the deficit and surplus regions
    of a commodity, turning deficit regions into ranked market targets,
    the market analysis, the greedy distribution plan and the summary. */
module AnalyzeSurplusDeficit {

  import opened Common
  import opened Sorting
  import opened MarketAnalysis

  function IsDeficitOf(commodityId: string): RegionSurplusDeficit -> bool
  {
    (r: RegionSurplusDeficit) => r.commodityId == commodityId && r.status == Deficit
  }

  function IsSurplusOf(commodityId: string): RegionSurplusDeficit -> bool
  {
    (r: RegionSurplusDeficit) => r.commodityId == commodityId && r.status == Surplus
  }

  /** Sort key that puts the most negative surplus first. */
  function MostNegativeFirst(): RegionSurplusDeficit -> real
  {
    (r: RegionSurplusDeficit) => -r.surplus
  }

  function LargestFirst(): RegionSurplusDeficit -> real
  {
    (r: RegionSurplusDeficit) => r.surplus
  }

  /** `findDeficitRegions`: the commodity's deficit records, the deepest
      deficit first. */
  function FindDeficitRegions(allRegions: seq<RegionSurplusDeficit>, commodityId: string)
    : (r: seq<RegionSurplusDeficit>)
    ensures multiset(r) == multiset(Filter(allRegions, IsDeficitOf(commodityId)))
    ensures forall i :: 0 <= i < |r| ==> r[i].commodityId == commodityId && r[i].status == Deficit
    ensures forall i, j :: 0 <= i < j < |r| ==> r[i].surplus <= r[j].surplus
  {
    var matching := Filter(allRegions, IsDeficitOf(commodityId));
    var sorted := SortDesc(matching, MostNegativeFirst());
    SortDescSorted(matching, MostNegativeFirst());
    SortDescKeeps(matching, MostNegativeFirst(), IsDeficitOf(commodityId));
    sorted
  }

  /** A record is returned iff it belongs to the commodity and is in deficit. */
  lemma FindDeficitRegionsExact(allRegions: seq<RegionSurplusDeficit>, commodityId: string, x: RegionSurplusDeficit)
    ensures x in FindDeficitRegions(allRegions, commodityId) <==>
      x in allRegions && x.commodityId == commodityId && x.status == Deficit
  {
    var matching := Filter(allRegions, IsDeficitOf(commodityId));
    assert x in FindDeficitRegions(allRegions, commodityId) <==> x in multiset(matching);
    FilterContains(allRegions, IsDeficitOf(commodityId), x);
  }

  /** Records with equal surplus keep their input order. */
  lemma FindDeficitRegionsStable(allRegions: seq<RegionSurplusDeficit>, commodityId: string, k: real)
    ensures SameKey(FindDeficitRegions(allRegions, commodityId), MostNegativeFirst(), k)
         == SameKey(Filter(allRegions, IsDeficitOf(commodityId)), MostNegativeFirst(), k)
  {
    SortDescStable(Filter(allRegions, IsDeficitOf(commodityId)), MostNegativeFirst(), k);
  }

  /** `findSurplusRegions`: the commodity's surplus records, the largest
      surplus first. */
  function FindSurplusRegions(allRegions: seq<RegionSurplusDeficit>, commodityId: string)
    : (r: seq<RegionSurplusDeficit>)
    ensures multiset(r) == multiset(Filter(allRegions, IsSurplusOf(commodityId)))
    ensures forall i :: 0 <= i < |r| ==> r[i].commodityId == commodityId && r[i].status == Surplus
    ensures forall i, j :: 0 <= i < j < |r| ==> r[i].surplus >= r[j].surplus
  {
    var matching := Filter(allRegions, IsSurplusOf(commodityId));
    var sorted := SortDesc(matching, LargestFirst());
    SortDescSorted(matching, LargestFirst());
    SortDescKeeps(matching, LargestFirst(), IsSurplusOf(commodityId));
    sorted
  }

  lemma FindSurplusRegionsExact(allRegions: seq<RegionSurplusDeficit>, commodityId: string, x: RegionSurplusDeficit)
    ensures x in FindSurplusRegions(allRegions, commodityId) <==>
      x in allRegions && x.commodityId == commodityId && x.status == Surplus
  {
    var matching := Filter(allRegions, IsSurplusOf(commodityId));
    assert x in FindSurplusRegions(allRegions, commodityId) <==> x in multiset(matching);
    FilterContains(allRegions, IsSurplusOf(commodityId), x);
  }

  lemma FindSurplusRegionsStable(allRegions: seq<RegionSurplusDeficit>, commodityId: string, k: real)
    ensures SameKey(FindSurplusRegions(allRegions, commodityId), LargestFirst(), k)
         == SameKey(Filter(allRegions, IsSurplusOf(commodityId)), LargestFirst(), k)
  {
    SortDescStable(Filter(allRegions, IsSurplusOf(commodityId)), LargestFirst(), k);
  }

  /** The same commodity's deficit and surplus lists never share a record. */
  lemma DeficitAndSurplusDisjoint(allRegions: seq<RegionSurplusDeficit>, commodityId: string, x: RegionSurplusDeficit)
    requires x in FindDeficitRegions(allRegions, commodityId)
    ensures x !in FindSurplusRegions(allRegions, commodityId)
  {
    FindDeficitRegionsExact(allRegions, commodityId, x);
    FindSurplusRegionsExact(allRegions, commodityId, x);
  }

  /** The point returned for a region the table does not know. */
  const DefaultCentroid := Coordinates(-2.5489, 118.0149)

  /** The known region centroids of `getRegionCoordinates`. */
  const CoordinateTable: map<string, Coordinates> := map[
    "jakarta" := Coordinates(-6.2088, 106.8456),
    "jabar-bandung" := Coordinates(-6.9175, 107.6191),
    "jatim-surabaya" := Coordinates(-7.2575, 112.7521),
    "banten-tangerang" := Coordinates(-6.1702, 106.6403),
    "jabar-bekasi" := Coordinates(-6.2383, 106.9756),
    "kalteng-kotim" := Coordinates(-2.5389, 112.9519),
    "sulsel-luwu" := Coordinates(-2.5500, 120.3500),
    "sumsel-oki" := Coordinates(-3.4167, 105.0833),
    "lampung-mesuji" := Coordinates(-3.9667, 105.5833),
    "papua-merauke" := Coordinates(-8.4833, 140.4000)
  ]

  /** The geography the target construction consults: a centroid table and
      a great-circle distance estimate in whole kilometres. */
  datatype Geo = Geo(table: map<string, Coordinates>, distance: (Coordinates, Coordinates) -> nat)

  /** `getRegionCoordinates`: the table entry, or the default centroid. */
  function RegionCoordinates(table: map<string, Coordinates>, regionId: string): (c: Coordinates)
    ensures regionId in table ==> c == table[regionId]
    ensures regionId !in table ==> c == DefaultCentroid
  {
    if regionId in table then table[regionId] else DefaultCentroid
  }

  lemma CoordinateTableLookups()
    ensures RegionCoordinates(CoordinateTable, "jakarta") == Coordinates(-6.2088, 106.8456)
    ensures RegionCoordinates(CoordinateTable, "papua-merauke") == Coordinates(-8.4833, 140.4000)
    ensures RegionCoordinates(CoordinateTable, "aceh") == DefaultCentroid
  {
    assert "aceh" !in CoordinateTable;
  }

  /** The target built from the deficit region at `index`. */
  function TargetFor(region: RegionSurplusDeficit, index: nat, source: Option<Coordinates>, geo: Geo): MarketTarget
  {
    var distance := if source.Some?
      then Some(geo.distance(source.value, RegionCoordinates(geo.table, region.regionId)) as real)
      else None;
    MarketTarget(index + 1, region.regionId, region.regionName, region.province,
      region.surplus, Abs(region.surplus), distance, FeasibilityScore(Abs(region.surplus), distance))
  }

  /** `generateTargetMarkets`: one target per deficit region, in order,
      ranked from 1. */
  function GenerateTargetMarkets(deficitRegions: seq<RegionSurplusDeficit>, source: Option<Coordinates>, geo: Geo)
    : (targets: seq<MarketTarget>)
    ensures |targets| == |deficitRegions|
    ensures forall i :: 0 <= i < |targets| ==>
      targets[i].rank == i + 1 &&
      targets[i].regionId == deficitRegions[i].regionId &&
      targets[i].regionName == deficitRegions[i].regionName &&
      targets[i].province == deficitRegions[i].province &&
      targets[i].deficitAmount == deficitRegions[i].surplus &&
      targets[i].estimatedDemand == Abs(deficitRegions[i].surplus) >= 0.0 &&
      targets[i].feasibility == FeasibilityScore(targets[i].estimatedDemand, targets[i].distance)
    ensures source == None ==> forall i :: 0 <= i < |targets| ==>
      targets[i].distance == None && targets[i].feasibility == Medium
    ensures source.Some? ==> forall i :: 0 <= i < |targets| ==>
      targets[i].distance == Some(geo.distance(source.value, RegionCoordinates(geo.table, deficitRegions[i].regionId)) as real) &&
      targets[i].distance.value >= 0.0
  {
    seq(|deficitRegions|, i requires 0 <= i < |deficitRegions| => TargetFor(deficitRegions[i], i, source, geo))
  }

  /** Building targets from a longer list extends the shorter list's targets. */
  lemma GenerateTargetMarketsPrefix(regions: seq<RegionSurplusDeficit>, n: nat, source: Option<Coordinates>, geo: Geo)
    requires n <= |regions|
    ensures GenerateTargetMarkets(regions[..n], source, geo) == GenerateTargetMarkets(regions, source, geo)[..n]
  {
  }

  /** Sum of `|surplus|` over the regions. */
  function TotalDeficit(regions: seq<RegionSurplusDeficit>): real
  {
    if regions == [] then 0.0
    else TotalDeficit(regions[..|regions| - 1]) + Abs(regions[|regions| - 1].surplus)
  }

  /** The targets' demand is the deficit the regions report. */
  lemma {:induction false} TargetDemandIsRegionDeficit(regions: seq<RegionSurplusDeficit>, source: Option<Coordinates>, geo: Geo)
    ensures TotalDemand(GenerateTargetMarkets(regions, source, geo)) == TotalDeficit(regions)
  {
    if regions != [] {
      var n := |regions|;
      TargetDemandIsRegionDeficit(regions[..n - 1], source, geo);
      GenerateTargetMarketsPrefix(regions, n - 1, source, geo);
    }
  }

  /** `analyzeMarket`: targets from the commodity's deficit regions, built
      without a source location, the insights for the source's surplus and
      the total demand. `geo` is never consulted, since no source location
      is passed. */
  function AnalyzeMarket(sourceRegion: RegionSurplusDeficit, allRegions: seq<RegionSurplusDeficit>, geo: Geo)
    : (r: MarketAnalysisResult)
    ensures r.sourceCommodity == sourceRegion.commodityId
    ensures r.sourceRegion == sourceRegion.regionName
    ensures r.availableSurplus == sourceRegion.surplus
    ensures r.targetMarkets == GenerateTargetMarkets(FindDeficitRegions(allRegions, sourceRegion.commodityId), None, geo)
    ensures |r.targetMarkets| == |FindDeficitRegions(allRegions, sourceRegion.commodityId)|
    ensures r.totalPotentialDemand == TotalDemand(r.targetMarkets)
    ensures forall i :: 0 <= i < |r.targetMarkets| ==>
      r.targetMarkets[i].distance == None && r.targetMarkets[i].feasibility == Medium
    ensures r.insights == MarketInsights(sourceRegion.surplus, r.targetMarkets)
    ensures r.totalPotentialDemand == TotalDeficit(FindDeficitRegions(allRegions, sourceRegion.commodityId))
    ensures r.totalPotentialDemand >= 0.0
  {
    var deficitRegions := FindDeficitRegions(allRegions, sourceRegion.commodityId);
    var targetMarkets := GenerateTargetMarkets(deficitRegions, None, geo);
    var insights := MarketInsights(sourceRegion.surplus, targetMarkets);
    var totalPotentialDemand := TotalDemand(targetMarkets);
    TargetDemandIsRegionDeficit(deficitRegions, None, geo);
    TotalDemandPrefix(targetMarkets, |targetMarkets|, |targetMarkets|);
    assert targetMarkets[..|targetMarkets|] == targetMarkets;
    MarketAnalysisResult(sourceRegion.commodityId, sourceRegion.regionName, sourceRegion.surplus,
      targetMarkets, insights, totalPotentialDemand)
  }

  /** Every target `analyzeMarket` builds is `Medium`, so it never reports
      high-feasibility markets. */
  lemma AnalyzeMarketHasNoHighInsight(sourceRegion: RegionSurplusDeficit, allRegions: seq<RegionSurplusDeficit>, geo: Geo)
    ensures forall k :: 0 <= k < |AnalyzeMarket(sourceRegion, allRegions, geo).insights| ==>
      !AnalyzeMarket(sourceRegion, allRegions, geo).insights[k].HighFeasibility?
  {
    var r := AnalyzeMarket(sourceRegion, allRegions, geo);
    NoHighTargetNoHighInsight(sourceRegion.surplus, r.targetMarkets);
  }

  datatype Allocation = Allocation(market: MarketTarget, allocatedAmount: real)

  function TierKey(): MarketTarget -> real
  {
    (t: MarketTarget) => Tier(t.feasibility) as real
  }

  /** The copy `calculateDistributionPlan` walks: high, then medium, then
      low feasibility, each tier in input order. */
  function ByFeasibility(targets: seq<MarketTarget>): (sorted: seq<MarketTarget>)
    ensures |sorted| == |targets| && multiset(sorted) == multiset(targets)
    ensures forall i, j :: 0 <= i < j < |sorted| ==> Tier(sorted[i].feasibility) >= Tier(sorted[j].feasibility)
  {
    SortDescSorted(targets, TierKey());
    var sorted := SortDesc(targets, TierKey());
    assert forall i, j :: 0 <= i < j < |sorted| ==> TierKey()(sorted[i]) >= TierKey()(sorted[j]);
    sorted
  }

  lemma ByFeasibilityStable(targets: seq<MarketTarget>, tier: real)
    ensures SameKey(ByFeasibility(targets), TierKey(), tier) == SameKey(targets, TierKey(), tier)
  {
    SortDescStable(targets, TierKey(), tier);
  }

  /** Sum of the allocated amounts. */
  function Allocated(plan: seq<Allocation>): real
  {
    if plan == [] then 0.0 else plan[0].allocatedAmount + Allocated(plan[1..])
  }

  /** The plan the greedy walk produces over `sorted` with `remaining` to
      give: stop when nothing remains, else give the next market the smaller
      of what remains and its demand. */
  function GreedyPlan(sorted: seq<MarketTarget>, remaining: real): (plan: seq<Allocation>)
    ensures |plan| <= |sorted|
  {
    if sorted == [] || remaining <= 0.0 then []
    else
      var amount := Min(remaining, Abs(sorted[0].deficitAmount));
      [Allocation(sorted[0], amount)] + GreedyPlan(sorted[1..], remaining - amount)
  }

  lemma {:induction false} TotalDemandCons(x: MarketTarget, s: seq<MarketTarget>)
    ensures TotalDemand([x] + s) == Abs(x.deficitAmount) + TotalDemand(s)
  {
    if s != [] {
      var n := |s|;
      TotalDemandCons(x, s[..n - 1]);
      assert ([x] + s)[..n] == [x] + s[..n - 1];
    }
  }

  /** Allocation `i` goes to the `i`-th market, made while surplus still
      remained, and is the smaller of that remainder and the market's demand. */
  lemma {:induction false} GreedyPlanAt(sorted: seq<MarketTarget>, remaining: real, i: nat)
    requires i < |GreedyPlan(sorted, remaining)|
    ensures var plan := GreedyPlan(sorted, remaining);
      remaining - Allocated(plan[..i]) > 0.0 &&
      plan[i] == Allocation(sorted[i], Min(remaining - Allocated(plan[..i]), Abs(sorted[i].deficitAmount))) &&
      plan[i].allocatedAmount >= 0.0
  {
    var plan := GreedyPlan(sorted, remaining);
    if i == 0 {
      assert plan[..0] == [];
    } else {
      var amount := Min(remaining, Abs(sorted[0].deficitAmount));
      var rest := GreedyPlan(sorted[1..], remaining - amount);
      GreedyPlanAt(sorted[1..], remaining - amount, i - 1);
      assert plan[..i] == [plan[0]] + rest[..i - 1];
      assert ([plan[0]] + rest[..i - 1])[1..] == rest[..i - 1];
    }
  }

  /** With a positive surplus the plan gives away the surplus capped by the
      total demand, so never more than the surplus. */
  lemma {:induction false} GreedyPlanTotal(sorted: seq<MarketTarget>, remaining: real)
    requires remaining > 0.0
    ensures Allocated(GreedyPlan(sorted, remaining)) == Min(remaining, TotalDemand(sorted))
  {
    if sorted == [] {
    } else {
      var amount := Min(remaining, Abs(sorted[0].deficitAmount));
      var tail := sorted[1..];
      assert sorted == [sorted[0]] + tail;
      TotalDemandCons(sorted[0], tail);
      TotalDemandPrefix(tail, |tail|, |tail|);
      assert tail[..|tail|] == tail;
      if remaining - amount > 0.0 {
        GreedyPlanTotal(tail, remaining - amount);
      }
    }
  }

  /** One step of the greedy walk, at position `i`: the plan built so far
      extended by the next allocation still leads to the same whole plan. */
  lemma GreedyPlanStep(sorted: seq<MarketTarget>, i: nat, remaining: real,
                       plan: seq<Allocation>, whole: seq<Allocation>)
    requires i < |sorted| && remaining > 0.0
    requires plan + GreedyPlan(sorted[i..], remaining) == whole
    ensures var amount := Min(remaining, Abs(sorted[i].deficitAmount));
      (plan + [Allocation(sorted[i], amount)]) + GreedyPlan(sorted[i + 1..], remaining - amount) == whole
  {
    var amount := Min(remaining, Abs(sorted[i].deficitAmount));
    var later := GreedyPlan(sorted[i + 1..], remaining - amount);
    assert sorted[i..][0] == sorted[i] && sorted[i..][1..] == sorted[i + 1..];
    assert GreedyPlan(sorted[i..], remaining) == [Allocation(sorted[i], amount)] + later;
    assert plan + ([Allocation(sorted[i], amount)] + later) == (plan + [Allocation(sorted[i], amount)]) + later;
  }

  /** `calculateDistributionPlan`: sorts a copy of the targets by
      feasibility tier, then walks it. */
  method CalculateDistributionPlan(availableSurplus: real, targets: seq<MarketTarget>)
    returns (plan: seq<Allocation>)
    ensures plan == GreedyPlan(ByFeasibility(targets), availableSurplus)
  {
    var sortedMarkets := ByFeasibility(targets);
    plan := AllocateInOrder(availableSurplus, sortedMarkets);
  }

  /** The `for ... of` walk of `calculateDistributionPlan` over the sorted
      copy: each market gets the smaller of the remaining surplus and its
      demand, and the remainder is decremented; the `break` once nothing
      remains is the second half of the loop guard. */
  method AllocateInOrder(availableSurplus: real, sortedMarkets: seq<MarketTarget>)
    returns (plan: seq<Allocation>)
    ensures plan == GreedyPlan(sortedMarkets, availableSurplus)
  {
    plan := [];
    var remainingSurplus := availableSurplus;
    ghost var whole := GreedyPlan(sortedMarkets, availableSurplus);
    var i := 0;
    assert sortedMarkets[0..] == sortedMarkets && [] + whole == whole;
    while i < |sortedMarkets| && remainingSurplus > 0.0
      invariant 0 <= i <= |sortedMarkets|
      invariant plan + GreedyPlan(sortedMarkets[i..], remainingSurplus) == whole
    {
      var market := sortedMarkets[i];
      var allocatedAmount := Min(remainingSurplus, Abs(market.deficitAmount));
      GreedyPlanStep(sortedMarkets, i, remainingSurplus, plan, whole);
      plan := plan + [Allocation(market, allocatedAmount)];
      remainingSurplus := remainingSurplus - allocatedAmount;
      i := i + 1;
    }
    assert GreedyPlan(sortedMarkets[i..], remainingSurplus) == [];
    assert plan + [] == plan;
  }

  /** The plan over the feasibility-sorted targets is empty without a
      surplus, and otherwise gives away the surplus capped by the demand. */
  lemma DistributionPlanTotal(availableSurplus: real, targets: seq<MarketTarget>)
    ensures availableSurplus <= 0.0 ==> GreedyPlan(ByFeasibility(targets), availableSurplus) == []
    ensures availableSurplus > 0.0 ==>
      Allocated(GreedyPlan(ByFeasibility(targets), availableSurplus))
        == Min(availableSurplus, TotalDemand(targets)) <= availableSurplus
  {
    if availableSurplus > 0.0 {
      GreedyPlanTotal(ByFeasibility(targets), availableSurplus);
      DemandIsOrderFree(targets);
    }
  }

  /** Reordering the targets does not change their total demand. */
  lemma DemandIsOrderFree(targets: seq<MarketTarget>)
    ensures TotalDemand(ByFeasibility(targets)) == TotalDemand(targets)
  {
    DemandOfPermutation(ByFeasibility(targets), targets);
  }

  lemma {:induction false} DemandOfPermutation(s: seq<MarketTarget>, t: seq<MarketTarget>)
    requires multiset(s) == multiset(t)
    ensures TotalDemand(s) == TotalDemand(t)
    decreases |s|
  {
    if s != [] {
      var x := s[|s| - 1];
      assert x in multiset(t);
      var j :| 0 <= j < |t| && t[j] == x;
      var t' := t[..j] + t[j + 1..];
      assert t == t[..j] + [x] + t[j + 1..];
      MultisetRemove(s, t, j);
      DemandOfPermutation(s[..|s| - 1], t');
      DemandRemove(t, j);
    }
  }

  /** Removing the last element of `s` and a copy of it from a permutation
      `t` of `s` leaves permutations of each other. */
  lemma MultisetRemove<T>(s: seq<T>, t: seq<T>, j: nat)
    requires multiset(s) == multiset(t) && s != [] && j < |t| && t[j] == s[|s| - 1]
    ensures multiset(s[..|s| - 1]) == multiset(t[..j] + t[j + 1..])
  {
    var x, init, t' := s[|s| - 1], s[..|s| - 1], t[..j] + t[j + 1..];
    assert s == init + [x];
    assert multiset(s) == multiset(init) + multiset{x};
    assert t == t[..j] + [x] + t[j + 1..];
    assert multiset(t) == multiset(t[..j]) + multiset{x} + multiset(t[j + 1..]);
    assert multiset(t') == multiset(t[..j]) + multiset(t[j + 1..]);
    forall y ensures multiset(t')[y] == multiset(init)[y] {
      assert multiset(s)[y] == multiset(t)[y];
    }
  }

  /** Taking one target out of the list removes exactly its demand. */
  lemma {:induction false} DemandRemove(t: seq<MarketTarget>, j: nat)
    requires j < |t|
    ensures TotalDemand(t) == TotalDemand(t[..j] + t[j + 1..]) + Abs(t[j].deficitAmount)
  {
    var n := |t|;
    if j < n - 1 {
      var init := t[..n - 1];
      DemandRemove(init, j);
      assert init[..j] + init[j + 1..] + [t[n - 1]] == t[..j] + t[j + 1..];
      assert (t[..j] + t[j + 1..])[..n - 2] == init[..j] + init[j + 1..];
    } else {
      assert t[..j] + t[j + 1..] == t[..n - 1];
    }
  }

  datatype Summary = Summary(
    totalSurplus: real, totalDeficit: real,
    surplusCount: nat, deficitCount: nat, balancedCount: nat)

  function CountStatus(regions: seq<RegionSurplusDeficit>, s: SurplusDeficitStatus): nat
  {
    if regions == [] then 0
    else CountStatus(regions[..|regions| - 1], s) + (if regions[|regions| - 1].status == s then 1 else 0)
  }

  /** Sum of `surplus` over the records in `Surplus` status. */
  function SurplusSum(regions: seq<RegionSurplusDeficit>): real
  {
    if regions == [] then 0.0
    else
      var last := regions[|regions| - 1];
      SurplusSum(regions[..|regions| - 1]) + (if last.status == Surplus then last.surplus else 0.0)
  }

  /** Sum of `|surplus|` over the records in `Deficit` status. */
  function DeficitSum(regions: seq<RegionSurplusDeficit>): real
  {
    if regions == [] then 0.0
    else
      var last := regions[|regions| - 1];
      DeficitSum(regions[..|regions| - 1]) + (if last.status == Deficit then Abs(last.surplus) else 0.0)
  }

  /** Every record is counted under exactly one status. */
  lemma {:induction false} StatusCountsPartition(regions: seq<RegionSurplusDeficit>)
    ensures CountStatus(regions, Surplus) + CountStatus(regions, Deficit) + CountStatus(regions, Balanced) == |regions|
  {
    if regions != [] {
      StatusCountsPartition(regions[..|regions| - 1]);
    }
  }

  lemma {:induction false} DeficitSumNonNegative(regions: seq<RegionSurplusDeficit>)
    ensures DeficitSum(regions) >= 0.0
  {
    if regions != [] {
      DeficitSumNonNegative(regions[..|regions| - 1]);
    }
  }

  /** The summary of the commodity's deficit records counts each of them and
      totals exactly the deficit its target markets would demand. */
  lemma {:induction false} DeficitSumOfDeficitRegions(regions: seq<RegionSurplusDeficit>)
    requires forall i :: 0 <= i < |regions| ==> regions[i].status == Deficit
    ensures DeficitSum(regions) == TotalDeficit(regions)
    ensures CountStatus(regions, Deficit) == |regions|
  {
    if regions != [] {
      DeficitSumOfDeficitRegions(regions[..|regions| - 1]);
    }
  }

  /** `getSurplusDeficitSummary`: one pass with five accumulators. */
  method GetSurplusDeficitSummary(regions: seq<RegionSurplusDeficit>) returns (summary: Summary)
    ensures summary.totalSurplus == SurplusSum(regions)
    ensures summary.totalDeficit == DeficitSum(regions) && summary.totalDeficit >= 0.0
    ensures summary.surplusCount == CountStatus(regions, Surplus)
    ensures summary.deficitCount == CountStatus(regions, Deficit)
    ensures summary.balancedCount == CountStatus(regions, Balanced)
    ensures summary.surplusCount + summary.deficitCount + summary.balancedCount == |regions|
  {
    var totalSurplus, totalDeficit := 0.0, 0.0;
    var surplusCount, deficitCount, balancedCount := 0, 0, 0;
    var i := 0;
    while i < |regions|
      invariant 0 <= i <= |regions|
      invariant totalSurplus == SurplusSum(regions[..i])
      invariant totalDeficit == DeficitSum(regions[..i])
      invariant surplusCount == CountStatus(regions[..i], Surplus)
      invariant deficitCount == CountStatus(regions[..i], Deficit)
      invariant balancedCount == CountStatus(regions[..i], Balanced)
    {
      var region := regions[i];
      assert regions[..i + 1][..i] == regions[..i];
      if region.status == Surplus {
        totalSurplus := totalSurplus + region.surplus;
        surplusCount := surplusCount + 1;
      } else if region.status == Deficit {
        totalDeficit := totalDeficit + Abs(region.surplus);
        deficitCount := deficitCount + 1;
      } else {
        balancedCount := balancedCount + 1;
      }
      i := i + 1;
    }
    assert regions[..i] == regions;
    StatusCountsPartition(regions);
    DeficitSumNonNegative(regions);
    summary := Summary(totalSurplus, totalDeficit, surplusCount, deficitCount, balancedCount);
  }
}
