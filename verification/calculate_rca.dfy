/** The RCA and ranking engine: the comparative-advantage ratio, the
    productivity score, the capped weighted composite, enrichment of a
    commodity with its derived fields, ranking and threshold filtering. */
module CalculateRca {

  import opened Common
  import opened Sorting
  import opened Commodities

  /** `calculateRCA`: the regional share of a commodity divided by its
      national share; 0 whenever the regional total, the national total or
      the national production is 0. */
  function CalculateRCA(regionalProduction: real, regionalTotal: real,
                        nationalProduction: real, nationalTotal: real): (r: real)
    ensures regionalTotal == 0.0 || nationalTotal == 0.0 || nationalProduction == 0.0 ==> r == 0.0
    ensures regionalTotal != 0.0 && nationalTotal != 0.0 && nationalProduction != 0.0 ==>
      r * (nationalProduction * regionalTotal) == regionalProduction * nationalTotal
  {
    if regionalTotal == 0.0 || nationalTotal == 0.0 || nationalProduction == 0.0 then 0.0
    else
      var regionalShare := regionalProduction / regionalTotal;
      var nationalShare := nationalProduction / nationalTotal;
      assert regionalShare * regionalTotal == regionalProduction;
      assert nationalShare * nationalTotal == nationalProduction;
      assert (regionalShare / nationalShare) * nationalShare == regionalShare;
      regionalShare / nationalShare
  }

  /** Two ratios that both satisfy the defining equation with a non-zero
      denominator product are equal. */
  lemma RatioUnique(r1: real, r2: real, d: real, n: real)
    requires d != 0.0 && r1 * d == n && r2 * d == n
    ensures r1 == r2
  {
    assert (r1 - r2) * d == 0.0;
  }

  /** A share is unchanged when its part and its whole are scaled alike. */
  lemma ShareScale(part: real, whole: real, f: real)
    requires whole != 0.0 && f != 0.0
    ensures f * whole != 0.0 && (part != 0.0 ==> f * part != 0.0)
    ensures (f * part) / (f * whole) == part / whole
  {
    var q1, q2 := (f * part) / (f * whole), part / whole;
    assert q1 * (f * whole) == f * part;
    assert q2 * whole == part;
    RatioUnique(q1, q2, f * whole, f * part);
  }

  /** Scaling the regional production and the regional total by the same
      non-zero factor leaves the RCA unchanged. */
  lemma RcaRegionalScaleInvariant(rp: real, rt: real, np: real, nt: real, f: real)
    requires f != 0.0
    ensures CalculateRCA(f * rp, f * rt, np, nt) == CalculateRCA(rp, rt, np, nt)
  {
    if rt != 0.0 {
      ShareScale(rp, rt, f);
    }
  }

  /** Scaling the national production and the national total by the same
      non-zero factor leaves the RCA unchanged. */
  lemma RcaNationalScaleInvariant(rp: real, rt: real, np: real, nt: real, g: real)
    requires g != 0.0
    ensures CalculateRCA(rp, rt, g * np, g * nt) == CalculateRCA(rp, rt, np, nt)
  {
    if nt != 0.0 {
      ShareScale(np, nt, g);
    }
  }

  /** A region whose share equals the national share has an RCA of exactly 1. */
  lemma RcaOfNationalShareIsOne(rp: real, rt: real, np: real, nt: real)
    requires rt != 0.0 && nt != 0.0 && np != 0.0
    requires rp * nt == np * rt
    ensures CalculateRCA(rp, rt, np, nt) == 1.0
  {
    RatioUnique(CalculateRCA(rp, rt, np, nt), 1.0, np * rt, rp * nt);
  }

  /** `calculateProductivityScore`: actual productivity as a percentage of the
      national average, 0 when the average is 0. */
  function ProductivityScore(actual: real, nationalAverage: real): (r: real)
    ensures nationalAverage == 0.0 ==> r == 0.0
    ensures nationalAverage != 0.0 ==> r * nationalAverage == actual * 100.0
    ensures nationalAverage > 0.0 && actual >= 0.0 ==> r >= 0.0
  {
    if nationalAverage == 0.0 then 0.0
    else
      assert (actual / nationalAverage) * nationalAverage == actual;
      (actual / nationalAverage) * 100.0
  }

  datatype Weights = Weights(rca: real, productivity: real)

  /** The weights `calculateFinalScore` uses when none are given. */
  const DefaultWeights := Weights(0.6, 0.4)

  /** The national average productivity `enrichCommodityWithAnalysis` uses by default. */
  const DefaultNationalAverage: real := 5.0

  /** `calculateFinalScore`: RCA capped above at 10 and productivity capped
      above at 200, each scaled to a fraction of its cap, weighted and
      expressed in percent. Only upper caps exist. */
  function FinalScore(rca: real, productivity: real, w: Weights): (r: real)
    ensures 0.0 <= rca && 0.0 <= productivity && 0.0 <= w.rca && 0.0 <= w.productivity ==>
      0.0 <= r <= 100.0 * (w.rca + w.productivity)
  {
    var normalizedRca := Min(rca, 10.0) / 10.0;
    var normalizedProductivity := Min(productivity, 200.0) / 200.0;
    WeightedBound(normalizedRca, normalizedProductivity, w);
    (normalizedRca * w.rca + normalizedProductivity * w.productivity) * 100.0
  }

  /** Two fractions in [0, 1] weighted by non-negative weights stay within
      the sum of the weights. */
  lemma WeightedBound(a: real, b: real, w: Weights)
    ensures 0.0 <= a <= 1.0 && 0.0 <= b <= 1.0 && 0.0 <= w.rca && 0.0 <= w.productivity ==>
      0.0 <= (a * w.rca + b * w.productivity) * 100.0 <= 100.0 * (w.rca + w.productivity)
  {
    if 0.0 <= a <= 1.0 && 0.0 <= b <= 1.0 && 0.0 <= w.rca && 0.0 <= w.productivity {
      ScaleMonotone(0.0, a, w.rca);
      ScaleMonotone(a, 1.0, w.rca);
      ScaleMonotone(0.0, b, w.productivity);
      ScaleMonotone(b, 1.0, w.productivity);
    }
  }

  /** With the default weights and non-negative scores the composite lies in [0, 100]. */
  lemma FinalScoreDefaultRange(rca: real, productivity: real)
    requires 0.0 <= rca && 0.0 <= productivity
    ensures 0.0 <= FinalScore(rca, productivity, DefaultWeights) <= 100.0
  {
  }

  lemma ScaleMonotone(a: real, b: real, w: real)
    requires a <= b && 0.0 <= w
    ensures a * w <= b * w
  {
  }

  /** The composite never decreases when either score grows, for non-negative weights. */
  lemma FinalScoreMonotone(rca1: real, prod1: real, rca2: real, prod2: real, w: Weights)
    requires rca1 <= rca2 && prod1 <= prod2
    requires 0.0 <= w.rca && 0.0 <= w.productivity
    ensures FinalScore(rca1, prod1, w) <= FinalScore(rca2, prod2, w)
  {
    var a1, a2 := Min(rca1, 10.0) / 10.0, Min(rca2, 10.0) / 10.0;
    var b1, b2 := Min(prod1, 200.0) / 200.0, Min(prod2, 200.0) / 200.0;
    assert a1 <= a2 && b1 <= b2;
    WeightedMonotone(a1, a2, b1, b2, w.rca, w.productivity);
  }

  lemma WeightedMonotone(a1: real, a2: real, b1: real, b2: real, w1: real, w2: real)
    requires a1 <= a2 && b1 <= b2 && 0.0 <= w1 && 0.0 <= w2
    ensures (a1 * w1 + b1 * w2) * 100.0 <= (a2 * w1 + b2 * w2) * 100.0
  {
    ScaleMonotone(a1, a2, w1);
    ScaleMonotone(b1, b2, w2);
  }

  /** Past its cap a score no longer moves the composite. */
  lemma FinalScoreSaturates(rca: real, productivity: real, w: Weights)
    ensures rca >= 10.0 ==> FinalScore(rca, productivity, w) == FinalScore(10.0, productivity, w)
    ensures productivity >= 200.0 ==> FinalScore(rca, productivity, w) == FinalScore(rca, 200.0, w)
  {
  }

  /** There is no lower clamp: a negative RCA with a positive weight drags
      the composite below the one for an RCA of 0. */
  lemma FinalScoreHasNoLowerClamp(rca: real, productivity: real, w: Weights)
    requires rca < 0.0 && w.rca > 0.0
    ensures FinalScore(rca, productivity, w) < FinalScore(0.0, productivity, w)
  {
    assert (rca / 10.0) * w.rca < 0.0;
  }

  /** `enrichCommodityWithAnalysis`: keeps the commodity whole and adds the
      trend, the productivity score and the composite built on the stored RCA. */
  function Enrich(c: Commodity, nationalAverage: real): (r: CommodityWithAnalysis)
    ensures r.commodity == c
    ensures r.trend == CalculateTrend(c.historical)
    ensures r.productivityScore == ProductivityScore(c.data.productivityRate, nationalAverage)
    ensures r.finalScore == FinalScore(c.rcaData.rcaScore, r.productivityScore, DefaultWeights)
    ensures 0.0 <= c.rcaData.rcaScore && 0.0 <= c.data.productivityRate && 0.0 < nationalAverage ==>
      0.0 <= r.finalScore <= 100.0
  {
    var trend := CalculateTrend(c.historical);
    var productivityScore := ProductivityScore(c.data.productivityRate, nationalAverage);
    var finalScore := FinalScore(c.rcaData.rcaScore, productivityScore, DefaultWeights);
    CommodityWithAnalysis(c, trend, productivityScore, finalScore)
  }

  /** The key `rankCommodities` sorts by. */
  datatype RankKey = ByRca | ByProductivity | ByFinal

  function KeyOf(key: RankKey): CommodityWithAnalysis -> real
  {
    match key
    case ByRca => (c: CommodityWithAnalysis) => c.commodity.rcaData.rcaScore
    case ByProductivity => (c: CommodityWithAnalysis) => c.productivityScore
    case ByFinal => (c: CommodityWithAnalysis) => c.finalScore
  }

  /** `rankCommodities`: a sorted copy, non-increasing by the chosen key
      (`ByFinal` when none is given). */
  function RankCommodities(list: seq<CommodityWithAnalysis>, key: RankKey): (r: seq<CommodityWithAnalysis>)
    ensures multiset(r) == multiset(list)
    ensures SortedDesc(r, KeyOf(key))
  {
    SortDescSorted(list, KeyOf(key));
    SortDesc(list, KeyOf(key))
  }

  /** Ranking is stable: commodities with equal keys keep their input order. */
  lemma RankCommoditiesStable(list: seq<CommodityWithAnalysis>, key: RankKey, k: real)
    ensures SameKey(RankCommodities(list, key), KeyOf(key), k) == SameKey(list, KeyOf(key), k)
  {
    SortDescStable(list, KeyOf(key), k);
  }

  /** The survivors of the RCA threshold. */
  function AtLeastRca(minRca: real): CommodityWithAnalysis -> bool
  {
    (c: CommodityWithAnalysis) => c.commodity.rcaData.rcaScore >= minRca
  }

  /** The threshold `filterTopCommodities` uses when none is given. */
  const DefaultMinRca: real := 1.0

  /** `filterTopCommodities`: the commodities whose RCA reaches `minRca`, in
      order, truncated by `slice(0, limit)` only when `limit` is given and
      non-zero (0 is falsy, so it keeps everything). */
  function FilterTopCommodities(list: seq<CommodityWithAnalysis>, minRca: real, limit: Option<int>)
    : (r: seq<CommodityWithAnalysis>)
    ensures forall i :: 0 <= i < |r| ==> r[i].commodity.rcaData.rcaScore >= minRca
    ensures |r| <= |Filter(list, AtLeastRca(minRca))|
    ensures r == Filter(list, AtLeastRca(minRca))[..|r|]
    ensures limit == None || limit == Some(0) ==> r == Filter(list, AtLeastRca(minRca))
    ensures limit.Some? && limit.value > 0 ==>
      |r| == Min(limit.value as real, |Filter(list, AtLeastRca(minRca))| as real) as int
  {
    var filtered := Filter(list, AtLeastRca(minRca));
    match limit
    case Some(n) =>
      if n != 0 then SliceTo(filtered, n) else filtered
    case None => filtered
  }

  /** Without truncation, a commodity is kept exactly when it is in the list
      and reaches the threshold. */
  lemma FilterTopCommoditiesExact(list: seq<CommodityWithAnalysis>, minRca: real, c: CommodityWithAnalysis)
    ensures c in FilterTopCommodities(list, minRca, None) <==>
      c in list && c.commodity.rcaData.rcaScore >= minRca
  {
    FilterContains(list, AtLeastRca(minRca), c);
  }
}
