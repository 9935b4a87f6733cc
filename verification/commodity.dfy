/** Commodity records and the small pure rules attached to them:
    the three-point production trend, the RCA status band and the
    category label. */
module Commodities {

  import Common

  datatype Category = Pertanian | Peternakan | Perikanan | Perkebunan

  datatype Trend = Up | Down | Stable

  datatype RcaStatus = Unggulan | Potensial | Rendah

  /** Current production snapshot. */
  datatype CommodityData = CommodityData(
    production: real, landArea: real, economicValue: real, productivityRate: real)

  /** One yearly snapshot of the production history. */
  datatype HistoricalData = HistoricalData(
    year: int, production: real, landArea: real, economicValue: real)

  /** Inputs and output of the revealed-comparative-advantage computation. */
  datatype RcaData = RcaData(
    regionalProduction: real, nationalProduction: real,
    regionalTotal: real, nationalTotal: real, rcaScore: real)

  datatype Commodity = Commodity(
    id: string, name: string, category: Category, regionId: string,
    data: CommodityData, historical: seq<HistoricalData>, rcaData: RcaData)

  /** A commodity together with the fields an analysis pass derives; the
      original record is kept whole, as the object spread does. */
  datatype CommodityWithAnalysis = CommodityWithAnalysis(
    commodity: Commodity, trend: Trend, productivityScore: real, finalScore: real)

  /** Year-over-year growth in percent; 0 when the previous production is 0. */
  function GrowthRate(prev: real, cur: real): (r: real)
    ensures prev == 0.0 ==> r == 0.0
    ensures prev != 0.0 ==> prev + r * prev / 100.0 == cur
  {
    if prev == 0.0 then 0.0 else (cur - prev) / prev * 100.0
  }

  /** The last (at most) three history entries: `historical.slice(-3)`. */
  function Recent(h: seq<HistoricalData>): (r: seq<HistoricalData>)
    ensures |r| == if |h| < 3 then |h| else 3
    ensures r == h[|h| - |r|..]
  {
    if |h| <= 3 then h else h[|h| - 3..]
  }

  /** Growth rate of each consecutive pair, oldest pair first. */
  function GrowthRates(h: seq<HistoricalData>): (r: seq<real>)
    requires |h| >= 1
    ensures |r| == |h| - 1
    ensures forall i :: 0 <= i < |r| ==> r[i] == GrowthRate(h[i].production, h[i + 1].production)
  {
    if |h| == 1 then []
    else GrowthRates(h[..|h| - 1]) + [GrowthRate(h[|h| - 2].production, h[|h| - 1].production)]
  }

  /** Average growth over the recent window; the window holds at least one pair. */
  function AverageGrowth(h: seq<HistoricalData>): real
    requires |h| >= 2
  {
    var rates := GrowthRates(Recent(h));
    Common.Sum(rates) / (|rates| as real)
  }

  /** `calculateTrend`. */
  function CalculateTrend(h: seq<HistoricalData>): (t: Trend)
    ensures |h| < 2 ==> t == Stable
    ensures |h| >= 2 ==> (t == Up <==> AverageGrowth(h) > 2.0)
    ensures |h| >= 2 ==> (t == Down <==> AverageGrowth(h) < -2.0)
  {
    if |h| < 2 then Stable
    else
      var avg := AverageGrowth(h);
      if avg > 2.0 then Up
      else if avg < -2.0 then Down
      else Stable
  }

  /** Entries older than the last three never influence the trend. */
  lemma TrendIgnoresOlderHistory(older: seq<HistoricalData>, h: seq<HistoricalData>)
    requires |h| >= 3
    ensures CalculateTrend(older + h) == CalculateTrend(h)
  {
    var all := older + h;
    assert all[|all| - 3..] == h[|h| - 3..];
    assert Recent(all) == Recent(h);
  }

  lemma {:induction false} SumOfZeros(s: seq<real>)
    requires forall i :: 0 <= i < |s| ==> s[i] == 0.0
    ensures Common.Sum(s) == 0.0
  {
    if s != [] {
      SumOfZeros(s[..|s| - 1]);
    }
  }

  /** A history whose production never changes is classified `Stable`. */
  lemma ConstantHistoryIsStable(h: seq<HistoricalData>)
    requires forall i :: 0 <= i < |h| ==> h[i].production == h[0].production
    ensures CalculateTrend(h) == Stable
  {
    if |h| >= 2 {
      var recent := Recent(h);
      var rates := GrowthRates(recent);
      forall i | 0 <= i < |rates| ensures rates[i] == 0.0 {
        assert recent[i] == h[|h| - |recent| + i];
        assert recent[i + 1] == h[|h| - |recent| + i + 1];
      }
      SumOfZeros(rates);
    }
  }

  lemma {:induction false} SumAbove(s: seq<real>, bound: real)
    requires forall i :: 0 <= i < |s| ==> s[i] > bound
    ensures Common.Sum(s) >= (|s| as real) * bound
    ensures |s| > 0 ==> Common.Sum(s) > (|s| as real) * bound
  {
    if s != [] {
      SumAbove(s[..|s| - 1], bound);
    }
  }

  lemma {:induction false} SumBelow(s: seq<real>, bound: real)
    requires forall i :: 0 <= i < |s| ==> s[i] < bound
    ensures |s| > 0 ==> Common.Sum(s) < (|s| as real) * bound
  {
    if |s| > 1 {
      SumBelow(s[..|s| - 1], bound);
    }
  }

  lemma MeanAbove(total: real, n: real, bound: real)
    requires n > 0.0 && total > n * bound
    ensures total / n > bound
  {
    assert (total / n) * n == total;
  }

  lemma MeanBelow(total: real, n: real, bound: real)
    requires n > 0.0 && total < n * bound
    ensures total / n < bound
  {
    assert (total / n) * n == total;
  }

  /** Production rises by more than 2% from entry `i` to entry `i + 1`. */
  predicate GrowsAt(h: seq<HistoricalData>, i: int)
    requires 0 <= i < |h| - 1
  {
    h[i].production > 0.0 && h[i + 1].production > h[i].production * 1.02
  }

  /** Production falls by more than 2% from entry `i` to entry `i + 1`. */
  predicate DeclinesAt(h: seq<HistoricalData>, i: int)
    requires 0 <= i < |h| - 1
  {
    h[i].production > 0.0 && h[i + 1].production < h[i].production * 0.98
  }

  lemma GrowthAboveTwoPercent(prev: real, cur: real)
    requires prev > 0.0 && cur > prev * 1.02
    ensures GrowthRate(prev, cur) > 2.0
  {
    var q := (cur - prev) / prev;
    assert q * prev == cur - prev;
  }

  lemma DeclineBeyondTwoPercent(prev: real, cur: real)
    requires prev > 0.0 && cur < prev * 0.98
    ensures GrowthRate(prev, cur) < -2.0
  {
    var q := (cur - prev) / prev;
    assert q * prev == cur - prev;
  }

  /** The recent window keeps every step of the history it ends. */
  lemma RecentSteps(h: seq<HistoricalData>, i: int)
    requires 0 <= i < |Recent(h)| - 1
    ensures |h| - |Recent(h)| + i + 1 < |h|
    ensures Recent(h)[i] == h[|h| - |Recent(h)| + i]
    ensures Recent(h)[i + 1] == h[|h| - |Recent(h)| + i + 1]
  {
  }

  /** Recent rates all above 2 give an average above 2. */
  lemma UpWhenRatesAbove(h: seq<HistoricalData>)
    requires |h| >= 2
    requires forall i :: 0 <= i < |GrowthRates(Recent(h))| ==> GrowthRates(Recent(h))[i] > 2.0
    ensures CalculateTrend(h) == Up
  {
    var rates := GrowthRates(Recent(h));
    SumAbove(rates, 2.0);
    MeanAbove(Common.Sum(rates), |rates| as real, 2.0);
  }

  /** Recent rates all below -2 give an average below -2. */
  lemma DownWhenRatesBelow(h: seq<HistoricalData>)
    requires |h| >= 2
    requires forall i :: 0 <= i < |GrowthRates(Recent(h))| ==> GrowthRates(Recent(h))[i] < -2.0
    ensures CalculateTrend(h) == Down
  {
    var rates := GrowthRates(Recent(h));
    SumBelow(rates, -2.0);
    MeanBelow(Common.Sum(rates), |rates| as real, -2.0);
  }

  /** When production grows by more than 2% in every year, the trend is `Up`. */
  lemma SteadyGrowthIsUp(h: seq<HistoricalData>)
    requires |h| >= 2
    requires forall i :: 0 <= i < |h| - 1 ==> GrowsAt(h, i)
    ensures CalculateTrend(h) == Up
  {
    var recent := Recent(h);
    var rates := GrowthRates(recent);
    forall i | 0 <= i < |rates| ensures rates[i] > 2.0 {
      RecentSteps(h, i);
      assert GrowsAt(h, |h| - |recent| + i);
      GrowthAboveTwoPercent(recent[i].production, recent[i + 1].production);
    }
    UpWhenRatesAbove(h);
  }

  /** When production falls by more than 2% in every year, the trend is `Down`. */
  lemma SteadyDeclineIsDown(h: seq<HistoricalData>)
    requires |h| >= 2
    requires forall i :: 0 <= i < |h| - 1 ==> DeclinesAt(h, i)
    ensures CalculateTrend(h) == Down
  {
    var recent := Recent(h);
    var rates := GrowthRates(recent);
    forall i | 0 <= i < |rates| ensures rates[i] < -2.0 {
      RecentSteps(h, i);
      assert DeclinesAt(h, |h| - |recent| + i);
      DeclineBeyondTwoPercent(recent[i].production, recent[i + 1].production);
    }
    DownWhenRatesBelow(h);
  }

  /** `getRCAStatus`: at least 1 is `Unggulan`, from 0.5 up to 1 `Potensial`, otherwise `Rendah`. */
  function RcaStatusOf(score: real): (s: RcaStatus)
    ensures s == Unggulan <==> score >= 1.0
    ensures s == Potensial <==> 0.5 <= score < 1.0
    ensures s == Rendah <==> score < 0.5
  {
    if score >= 1.0 then Unggulan
    else if score >= 0.5 then Potensial
    else Rendah
  }

  function StatusRank(s: RcaStatus): nat
  {
    match s
    case Rendah => 0
    case Potensial => 1
    case Unggulan => 2
  }

  /** A higher RCA score never yields a lower status. */
  lemma RcaStatusMonotone(a: real, b: real)
    requires a <= b
    ensures StatusRank(RcaStatusOf(a)) <= StatusRank(RcaStatusOf(b))
  {
  }

  /** `getCategoryLabel`: total over the four categories. */
  function CategoryLabel(c: Category): (text: string)
    ensures |text| > 0
  {
    match c
    case Pertanian => "Pertanian"
    case Peternakan => "Peternakan"
    case Perikanan => "Perikanan"
    case Perkebunan => "Perkebunan"
  }

  /** Distinct categories carry distinct labels. */
  lemma CategoryLabelInjective(a: Category, b: Category)
    requires a != b
    ensures CategoryLabel(a) != CategoryLabel(b)
  {
  }
}
