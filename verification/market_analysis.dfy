/** Regional balance records, the ±10% surplus/deficit classification, the
    distance-based feasibility tiers and the market insights. */
module MarketAnalysis {

  import opened Common

  datatype SurplusDeficitStatus = Surplus | Deficit | Balanced

  datatype RegionSurplusDeficit = RegionSurplusDeficit(
    regionId: string, regionName: string, province: string, commodityId: string,
    production: real, consumption: real, population: real,
    consumptionPerCapita: real, surplus: real, status: SurplusDeficitStatus)

  datatype Feasibility = High | Medium | Low

  /** A deficit region offered as a market; `distance` is absent when no
      source location was given. */
  datatype MarketTarget = MarketTarget(
    rank: int, regionId: string, regionName: string, province: string,
    deficitAmount: real, estimatedDemand: real, distance: Option<real>,
    feasibility: Feasibility)

  /** The insight sentences, each carrying the values it reports; number
      formatting is not part of the model. */
  datatype Insight =
    | NoPotentialMarket
    | TopTarget(regionName: string, deficit: real)
    | CanCover(surplus: real, regions: nat)
    | FullyCovers
    | CoversPercent(surplus: real, totalDemand: real)
    | HighFeasibility(markets: nat)

  datatype MarketAnalysisResult = MarketAnalysisResult(
    sourceCommodity: string, sourceRegion: string, availableSurplus: real,
    targetMarkets: seq<MarketTarget>, insights: seq<Insight>, totalPotentialDemand: real)

  /** The classification `calculateSurplusDeficit` assigns to a surplus:
      beyond 10% of consumption either way, otherwise balanced. */
  function StatusOf(surplus: real, consumption: real): (status: SurplusDeficitStatus)
    ensures status == Surplus <==> surplus > consumption * 0.1
    ensures status == Deficit <==> surplus <= consumption * 0.1 && surplus < -consumption * 0.1
    ensures status == Balanced <==> -consumption * 0.1 <= surplus <= consumption * 0.1
  {
    if surplus > consumption * 0.1 then Surplus
    else if surplus < -consumption * 0.1 then Deficit
    else Balanced
  }

  /** `calculateSurplusDeficit`: the net surplus and its status. */
  method CalculateSurplusDeficit(production: real, consumption: real)
    returns (surplus: real, status: SurplusDeficitStatus)
    ensures surplus == production - consumption
    ensures status == StatusOf(production - consumption, consumption)
  {
    surplus := production - consumption;
    if surplus > consumption * 0.1 {
      status := Surplus;
    } else if surplus < -consumption * 0.1 {
      status := Deficit;
    } else {
      status := Balanced;
    }
  }

  /** Production that exactly meets a non-negative consumption is balanced. */
  lemma MatchedProductionIsBalanced(production: real)
    requires production >= 0.0
    ensures StatusOf(production - production, production) == Balanced
  {
  }

  function StatusRank(s: SurplusDeficitStatus): nat
  {
    match s
    case Deficit => 0
    case Balanced => 1
    case Surplus => 2
  }

  /** More production at the same consumption never worsens the status. */
  lemma StatusMonotoneInProduction(p1: real, p2: real, consumption: real)
    requires p1 <= p2
    ensures StatusRank(StatusOf(p1 - consumption, consumption))
         <= StatusRank(StatusOf(p2 - consumption, consumption))
  {
  }

  /** `getStatusLabel`. */
  function StatusLabel(s: SurplusDeficitStatus): (text: string)
    ensures |text| > 0
  {
    match s
    case Surplus => "Surplus"
    case Deficit => "Defisit"
    case Balanced => "Seimbang"
  }

  lemma StatusLabelInjective(s: SurplusDeficitStatus, t: SurplusDeficitStatus)
    requires s != t
    ensures StatusLabel(s) != StatusLabel(t)
  {
  }

  /** `getFeasibilityScore`: an absent or zero distance is `Medium`;
      otherwise the demand per kilometre decides, above 1000 `High`,
      above 100 `Medium`, else `Low`. */
  function FeasibilityScore(deficitAmount: real, distance: Option<real>): (f: Feasibility)
    ensures distance == None || distance == Some(0.0) ==> f == Medium
    ensures distance.Some? && distance.value != 0.0 ==>
      (f == High <==> deficitAmount / distance.value > 1000.0) &&
      (f == Low <==> deficitAmount / distance.value <= 100.0)
  {
    if distance == None || distance.value == 0.0 then Medium
    else
      var efficiency := deficitAmount / distance.value;
      if efficiency > 1000.0 then High
      else if efficiency > 100.0 then Medium
      else Low
  }

  function Tier(f: Feasibility): nat
  {
    match f
    case High => 3
    case Medium => 2
    case Low => 1
  }

  lemma QuotientMonotone(a: real, b: real, d: real)
    requires d > 0.0 && a <= b
    ensures a / d <= b / d
  {
    assert (a / d) * d == a && (b / d) * d == b;
  }

  lemma QuotientAntitone(a: real, d1: real, d2: real)
    requires a >= 0.0 && 0.0 < d1 <= d2
    ensures a / d2 <= a / d1
  {
    var q1, q2 := a / d1, a / d2;
    assert q1 * d1 == a && q2 * d2 == a;
    assert q1 >= 0.0;
    assert q1 * d1 <= q1 * d2;
    assert q2 * d2 <= q1 * d2;
  }

  /** At a fixed positive distance, a larger deficit never lowers the tier. */
  lemma FeasibilityMonotoneInDeficit(d1: real, d2: real, distance: real)
    requires d1 <= d2 && distance > 0.0
    ensures Tier(FeasibilityScore(d1, Some(distance))) <= Tier(FeasibilityScore(d2, Some(distance)))
  {
    QuotientMonotone(d1, d2, distance);
  }

  /** For a non-negative deficit, a farther market never has a higher tier. */
  lemma FeasibilityAntitoneInDistance(deficit: real, near: real, far: real)
    requires deficit >= 0.0 && 0.0 < near <= far
    ensures Tier(FeasibilityScore(deficit, Some(far))) <= Tier(FeasibilityScore(deficit, Some(near)))
  {
    QuotientAntitone(deficit, near, far);
  }

  /** Sum of `|deficitAmount|` over the targets. */
  function TotalDemand(targets: seq<MarketTarget>): real
  {
    if targets == [] then 0.0
    else TotalDemand(targets[..|targets| - 1]) + Abs(targets[|targets| - 1].deficitAmount)
  }

  /** Demand never decreases along prefixes. */
  lemma {:induction false} TotalDemandPrefix(targets: seq<MarketTarget>, i: nat, j: nat)
    requires i <= j <= |targets|
    ensures 0.0 <= TotalDemand(targets[..i]) <= TotalDemand(targets[..j])
  {
    if j > 0 {
      assert targets[..j][..j - 1] == targets[..j - 1];
      TotalDemandPrefix(targets, if i < j then i else j - 1, j - 1);
    }
  }

  /** How many indices `i` have a prefix demand (up to and including `i`)
      that the surplus covers, as the filter in `generateMarketInsights`
      counts them. */
  function CountCovered(targets: seq<MarketTarget>, surplus: real): (n: nat)
    ensures n <= |targets|
  {
    if targets == [] then 0
    else
      var covered := if TotalDemand(targets) <= surplus then 1 else 0;
      CountCovered(targets[..|targets| - 1], surplus) + covered
  }

  /** The covered indices are exactly a prefix: index `i` is covered iff it
      lies below the count. */
  lemma {:induction false} CoveredIsPrefix(targets: seq<MarketTarget>, surplus: real, i: nat)
    requires i < |targets|
    ensures i < CountCovered(targets, surplus) <==> TotalDemand(targets[..i + 1]) <= surplus
  {
    var n := |targets|;
    var init := targets[..n - 1];
    assert targets[..n] == targets;
    if TotalDemand(targets) <= surplus {
      AllPrefixesCovered(init, surplus);
      TotalDemandPrefix(targets, i + 1, n);
    } else if i < n - 1 {
      assert init[..i + 1] == targets[..i + 1];
      CoveredIsPrefix(init, surplus, i);
    }
  }

  /** When the whole demand is covered, every index is. */
  lemma {:induction false} AllPrefixesCovered(targets: seq<MarketTarget>, surplus: real)
    requires TotalDemand(targets) <= surplus
    ensures CountCovered(targets, surplus) == |targets|
  {
    if targets != [] {
      var n := |targets|;
      TotalDemandPrefix(targets, n - 1, n);
      assert targets[..n] == targets;
      AllPrefixesCovered(targets[..n - 1], surplus);
    }
  }

  function IsHigh(): MarketTarget -> bool
  {
    (t: MarketTarget) => t.feasibility == High
  }

  /** Number of targets with `High` feasibility. */
  function HighCount(targets: seq<MarketTarget>): nat
  {
    |Filter(targets, IsHigh())|
  }

  lemma HighCountPositive(targets: seq<MarketTarget>)
    ensures HighCount(targets) > 0 <==> exists i :: 0 <= i < |targets| && targets[i].feasibility == High
  {
    var highs := Filter(targets, IsHigh());
    if |highs| > 0 {
      FilterContains(targets, IsHigh(), highs[0]);
    }
    if exists i :: 0 <= i < |targets| && targets[i].feasibility == High {
      var i :| 0 <= i < |targets| && targets[i].feasibility == High;
      FilterContains(targets, IsHigh(), targets[i]);
    }
  }

  /** The insights of `generateMarketInsights`, in emission order: the top
      target, the coverage count when positive, exactly one of full coverage
      or the covered percentage, and the high-feasibility count when positive. */
  function MarketInsights(availableSurplus: real, targets: seq<MarketTarget>): (insights: seq<Insight>)
    ensures targets == [] ==> insights == [NoPotentialMarket]
    ensures targets != [] ==> 2 <= |insights| <= 4
    ensures targets != [] ==> insights[0] == TopTarget(targets[0].regionName, Abs(targets[0].deficitAmount))
  {
    if targets == [] then [NoPotentialMarket]
    else
      var total := TotalDemand(targets);
      var covered := CountCovered(targets, availableSurplus);
      var high := HighCount(targets);
      [TopTarget(targets[0].regionName, Abs(targets[0].deficitAmount))]
        + (if covered > 0 then [CanCover(availableSurplus, covered)] else [])
        + (if availableSurplus >= total then [FullyCovers] else [CoversPercent(availableSurplus, total)])
        + (if high > 0 then [HighFeasibility(high)] else [])
  }

  /** Which insights appear, for a non-empty target list. */
  lemma MarketInsightsContents(availableSurplus: real, targets: seq<MarketTarget>)
    requires targets != []
    ensures var insights := MarketInsights(availableSurplus, targets);
      (FullyCovers in insights <==> availableSurplus >= TotalDemand(targets)) &&
      (CoversPercent(availableSurplus, TotalDemand(targets)) in insights <==>
       availableSurplus < TotalDemand(targets)) &&
      (CanCover(availableSurplus, CountCovered(targets, availableSurplus)) in insights <==>
       CountCovered(targets, availableSurplus) > 0) &&
      (HighFeasibility(HighCount(targets)) in insights <==> HighCount(targets) > 0)
  {
    var total := TotalDemand(targets);
    var covered := CountCovered(targets, availableSurplus);
    var high := HighCount(targets);
    var top := [TopTarget(targets[0].regionName, Abs(targets[0].deficitAmount))];
    var cover := if covered > 0 then [CanCover(availableSurplus, covered)] else [];
    var whole := if availableSurplus >= total then [FullyCovers] else [CoversPercent(availableSurplus, total)];
    var highs := if high > 0 then [HighFeasibility(high)] else [];
    var insights := MarketInsights(availableSurplus, targets);
    assert insights == top + cover + whole + highs;
    InParts(top, cover, whole, highs, FullyCovers);
    InParts(top, cover, whole, highs, CoversPercent(availableSurplus, total));
    InParts(top, cover, whole, highs, CanCover(availableSurplus, covered));
    InParts(top, cover, whole, highs, HighFeasibility(high));
  }

  lemma InParts(a: seq<Insight>, b: seq<Insight>, c: seq<Insight>, d: seq<Insight>, x: Insight)
    ensures x in a + b + c + d <==> x in a || x in b || x in c || x in d
  {
  }

  /** Without a high-feasibility target there is no high-feasibility insight. */
  lemma NoHighTargetNoHighInsight(availableSurplus: real, targets: seq<MarketTarget>)
    requires forall i :: 0 <= i < |targets| ==> targets[i].feasibility != High
    ensures forall k :: 0 <= k < |MarketInsights(availableSurplus, targets)| ==>
      !MarketInsights(availableSurplus, targets)[k].HighFeasibility?
  {
    HighCountPositive(targets);
    if targets != [] {
      var total := TotalDemand(targets);
      var covered := CountCovered(targets, availableSurplus);
      var top := [TopTarget(targets[0].regionName, Abs(targets[0].deficitAmount))];
      var cover := if covered > 0 then [CanCover(availableSurplus, covered)] else [];
      var whole := if availableSurplus >= total then [FullyCovers] else [CoversPercent(availableSurplus, total)];
      assert MarketInsights(availableSurplus, targets) == top + cover + whole;
    }
  }

  /** A surplus that covers the whole demand covers every target region. */
  lemma FullCoverageCountsAll(availableSurplus: real, targets: seq<MarketTarget>)
    requires targets != [] && availableSurplus >= TotalDemand(targets)
    ensures CountCovered(targets, availableSurplus) == |targets|
    ensures CanCover(availableSurplus, |targets|) in MarketInsights(availableSurplus, targets)
  {
    AllPrefixesCovered(targets, availableSurplus);
  }

  /** A surplus short of the first target's demand covers no region. */
  lemma ShortSurplusCoversNone(availableSurplus: real, targets: seq<MarketTarget>)
    requires targets != [] && availableSurplus < Abs(targets[0].deficitAmount)
    ensures CountCovered(targets, availableSurplus) == 0
    ensures forall k :: 0 <= k < |MarketInsights(availableSurplus, targets)| ==>
      !MarketInsights(availableSurplus, targets)[k].CanCover?
  {
    assert targets[..1] == [targets[0]];
    assert TotalDemand(targets[..1]) == Abs(targets[0].deficitAmount) by {
      assert targets[..1][..0] == [];
    }
    if CountCovered(targets, availableSurplus) > 0 {
      CoveredIsPrefix(targets, availableSurplus, 0);
    }
  }

  /** `generateMarketInsights`: successive pushes. The source region's name
      is not used by any insight. */
  method GenerateMarketInsights(sourceRegion: string, availableSurplus: real, targets: seq<MarketTarget>)
    returns (insights: seq<Insight>)
    ensures insights == MarketInsights(availableSurplus, targets)
  {
    insights := [];
    if |targets| == 0 {
      insights := insights + [NoPotentialMarket];
      return;
    }
    var topTarget := targets[0];
    insights := insights + [TopTarget(topTarget.regionName, Abs(topTarget.deficitAmount))];
    var totalDemand := TotalDemand(targets);
    var coverageCount := CountCovered(targets, availableSurplus);
    if coverageCount > 0 {
      insights := insights + [CanCover(availableSurplus, coverageCount)];
    }
    if availableSurplus >= totalDemand {
      insights := insights + [FullyCovers];
    } else {
      insights := insights + [CoversPercent(availableSurplus, totalDemand)];
    }
    var highFeasibility := HighCount(targets);
    if highFeasibility > 0 {
      insights := insights + [HighFeasibility(highFeasibility)];
    }
  }
}
