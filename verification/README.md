# Commodity analysis core, modelled in Dafny

This project models the analytical engine of a dashboard for regional
commodities in Indonesia. The engine has five parts:

- **RCA and ranking engine.** It computes the revealed comparative advantage
  (RCA) of a commodity in a region, a productivity score, a capped weighted
  composite ("final score") and a three-point production trend. It also ranks
  commodities and filters them by an RCA threshold.
- **Quality grading engine.** It grades measured parameters against A/B
  bands and averages them into an overall grade, with retail readiness and
  recommendations. It also computes a grade distribution, a 0–100 quality
  index and the worst parameters, and checks the inputs.
- **Surplus/deficit and market-matching engine.** It classifies a region's
  balance as surplus, deficit or balanced at ±10% of consumption. It picks the
  deficit regions of a commodity as target markets with distance-based
  feasibility tiers, and reports prefix-sum coverage insights. It also builds
  a greedy, feasibility-first distribution plan and a per-status summary.
- **Region hierarchy lookup.** A depth-first search over
  Province → Regency → District that returns the enclosing path.
- **Commodity store.** The UI state: the commodity list, the selection, the
  location and the filters. Its setters merge partial records, and a query
  filters and sorts the list.

Modules:

- `Common`: Option, `filter`, `Math.min`/`Math.abs`, sums and `slice(0, end)`.
- `Sorting`: the stable sort that `Array.prototype.sort` performs with a
  numeric comparator.
- `Commodities`, `CalculateRca`, `QualityAssessment`, `AssessQuality`,
  `MarketAnalysis`, `AnalyzeSurplusDeficit`, `Regions`, `Store`: one module
  per source file.

Modelling choices:

- **Numbers.** Numbers are `real` and treated as finite. The two places where
  the code divides 0 by 0 are modelled explicitly.
  - `calculateOverallGrade([])` yields C.
  - `calculateQualityIndex([])` yields NaN, modelled as `None`.
- **Sorting.** Every sort goes through one stable insertion sort,
  `Sorting.SortDesc`, which is non-increasing by a real key. An ascending sort
  uses the negated key.
- **Imperative code.** Loops that push onto arrays or bump counters are
  methods. Each is proved equal to a specification function, and the
  properties are lemmas about that function. The store is a class whose
  setters modify its fields.

`calculateFinalScore` caps the RCA at 10 and the productivity score at 200
with `Math.min` only. There is no lower clamp, so a negative score lowers the
composite below 0 and the [0, 100] range needs non-negative inputs.

- `FinalScoreHasNoLowerClamp` shows that a negative RCA lowers the
  composite below the value at RCA 0.
- The [0, 100] range is proved only for non-negative scores
  (`FinalScoreDefaultRange`).

## Model

| member | source | states |
|---|---|---|
| Common.SliceTo | src/core/use-cases/calculate-rca.ts:81 | `slice(0, end)`: a non-negative end keeps min(end, n) leading elements; a negative end drops that many from the back; the result is always a prefix |
| Sorting.SortDesc | src/core/use-cases/calculate-rca.ts:62-72 | the sorted copy has the input's length and is a permutation of it (same multiset) |
| Sorting.SortDescSorted | src/core/use-cases/calculate-rca.ts:62-72 | the sorted copy is non-increasing by the key |
| Sorting.SortDescStable | src/core/use-cases/calculate-rca.ts:62-72 | stability: for every key value, the elements with that key keep their input order |
| Sorting.SortDescOfSorted | src/core/use-cases/calculate-rca.ts:62-72 | an input already non-increasing by the key is returned unchanged |
| Sorting.SortDescKeeps | src/core/use-cases/calculate-rca.ts:62-72 | sorting only reorders: a property every input element has, every output element has |
| Commodities.GrowthRate | src/core/entities/commodity.ts:48-50 | the growth is 0 when the previous production is 0; otherwise prev + rate% of prev equals the current production |
| Commodities.Recent | src/core/entities/commodity.ts:46 | `slice(-3)`: the last min(3, n) entries |
| Commodities.GrowthRates | src/core/entities/commodity.ts:47-51 | one rate per consecutive pair, the i-th being the growth from entry i to entry i+1 |
| Commodities.CalculateTrend | src/core/entities/commodity.ts:43-58 | Stable with fewer than 2 entries; otherwise Up iff the average recent growth > 2, Down iff < −2 |
| Commodities.TrendIgnoresOlderHistory | src/core/entities/commodity.ts:46 | prepending any older history to a history of ≥ 3 entries leaves the trend unchanged |
| Commodities.ConstantHistoryIsStable | src/core/entities/commodity.ts:47-57 | a history whose production never changes is Stable |
| Commodities.SteadyGrowthIsUp | src/core/entities/commodity.ts:47-55 | when production grows by more than 2% every year, the trend is Up |
| Commodities.SteadyDeclineIsDown | src/core/entities/commodity.ts:47-56 | when production falls by more than 2% every year, the trend is Down |
| Commodities.RcaStatusOf | src/core/entities/commodity.ts:60-64 | Unggulan iff score ≥ 1, Potensial iff 0.5 ≤ score < 1, Rendah iff score < 0.5 |
| Commodities.RcaStatusMonotone | src/core/entities/commodity.ts:60-64 | a higher score never gives a lower status |
| Commodities.CategoryLabel | src/core/entities/commodity.ts:66-74 | every category has a non-empty label |
| Commodities.CategoryLabelInjective | src/core/entities/commodity.ts:66-74 | distinct categories have distinct labels |
| CalculateRca.CalculateRCA | src/core/use-cases/calculate-rca.ts:4-18 | 0 when the regional total, the national total or the national production is 0; otherwise r·(np·rt) = rp·nt, i.e. r = (rp/rt)/(np/nt) |
| CalculateRca.RcaRegionalScaleInvariant | src/core/use-cases/calculate-rca.ts:14-17 | scaling the regional production and total by the same non-zero factor leaves the RCA unchanged |
| CalculateRca.RcaNationalScaleInvariant | src/core/use-cases/calculate-rca.ts:14-17 | scaling the national production and total by the same non-zero factor leaves the RCA unchanged |
| CalculateRca.RcaOfNationalShareIsOne | src/core/use-cases/calculate-rca.ts:14-17 | a regional share equal to the national share gives an RCA of exactly 1 |
| CalculateRca.ProductivityScore | src/core/use-cases/calculate-rca.ts:20-26 | 0 when the national average is 0; otherwise score·avg = actual·100; non-negative for a positive average and non-negative actual |
| CalculateRca.FinalScore | src/core/use-cases/calculate-rca.ts:28-37 | with non-negative scores and weights the composite lies in [0, 100·(w.rca + w.productivity)] |
| CalculateRca.FinalScoreDefaultRange | src/core/use-cases/calculate-rca.ts:31-36 | with the default weights 0.6/0.4 and non-negative scores the composite lies in [0, 100] |
| CalculateRca.FinalScoreMonotone | src/core/use-cases/calculate-rca.ts:33-36 | for non-negative weights the composite never decreases when either score grows |
| CalculateRca.FinalScoreSaturates | src/core/use-cases/calculate-rca.ts:33-34 | an RCA beyond 10 counts as 10, and a productivity beyond 200 counts as 200 |
| CalculateRca.FinalScoreHasNoLowerClamp | src/core/use-cases/calculate-rca.ts:33-36 | only upper caps exist: a negative RCA with a positive weight scores below RCA 0 |
| CalculateRca.Enrich | src/core/use-cases/calculate-rca.ts:39-56 | keeps the commodity whole and adds the trend of its history, the productivity score of its rate, and the final score built from its stored RCA; the final score lies in [0, 100] for non-negative inputs and a positive average |
| CalculateRca.RankCommodities | src/core/use-cases/calculate-rca.ts:58-73 | a permutation of the input, non-increasing by the chosen key |
| CalculateRca.RankCommoditiesStable | src/core/use-cases/calculate-rca.ts:62-72 | commodities with equal keys keep their input order |
| CalculateRca.FilterTopCommodities | src/core/use-cases/calculate-rca.ts:75-82 | every kept element reaches minRCA; the result is a prefix of the filtered list; an absent or 0 limit keeps the whole filtered list; a positive limit keeps min(limit, filtered count) |
| CalculateRca.FilterTopCommoditiesExact | src/core/use-cases/calculate-rca.ts:80 | without a limit, a commodity is kept iff it is in the input and its RCA reaches minRCA |
| QualityAssessment.GradeLabel | src/core/entities/quality-assessment.ts:40-47 | every grade has a non-empty label |
| QualityAssessment.GradeLabelInjective | src/core/entities/quality-assessment.ts:40-47 | distinct grades have distinct labels |
| QualityAssessment.IsRetailReady | src/core/entities/quality-assessment.ts:58-60 | ready iff the grade is A or B; not ready iff C |
| QualityAssessment.DetermineGrade | src/core/entities/quality-assessment.ts:62-69 | A iff the value is in A's inclusive band; B iff outside A's and inside B's; C iff in neither |
| QualityAssessment.DetermineGradeIgnoresBandC | src/core/entities/quality-assessment.ts:68 | replacing the C band never changes the grade |
| QualityAssessment.OverallGrade | src/core/entities/quality-assessment.ts:71-79 | C for an empty list (0/0 fails both tests); otherwise A iff the average of A=3, B=2, C=1 is ≥ 2.5, B iff it is in [1.5, 2.5), C iff < 1.5 |
| QualityAssessment.OverallGradeOfUniform | src/core/entities/quality-assessment.ts:71-79 | a non-empty list of one repeated grade has that grade overall |
| QualityAssessment.TotalByCounts | src/core/entities/quality-assessment.ts:72-73 | the point total is 3·#A + 2·#B + #C |
| QualityAssessment.OverallGradeOrderIndependent | src/core/entities/quality-assessment.ts:71-79 | two lists with the same grades in any order have the same overall grade |
| QualityAssessment.OverallGradeExamples | src/core/entities/quality-assessment.ts:71-79 | A, A, B grades A overall; C, C, B grades C |
| QualityAssessment.GetRecommendation | src/core/entities/quality-assessment.ts:102-168 | the table text when present and non-empty; the generic "Perlu perbaikan pada parameter …" text when the entry is missing; never empty |
| QualityAssessment.UnknownCommodityGetsGenericText | src/core/entities/quality-assessment.ts:164-166 | a commodity type outside the table always gets the generic text |
| QualityAssessment.RequiredMessagesCount | src/core/entities/quality-assessment.ts:87-93 | exactly one message per result graded B or C |
| QualityAssessment.RequiredMessagesAppend | src/core/entities/quality-assessment.ts:87-93 | the messages follow result order: the messages of s + t are those of s, then those of t |
| QualityAssessment.Recommendations | src/core/entities/quality-assessment.ts:81-100 | at least one message; the B/C messages when there are any, otherwise exactly the premium message |
| QualityAssessment.AllAGivesPremium | src/core/entities/quality-assessment.ts:95-97 | when every result is A, the only recommendation is the premium message |
| QualityAssessment.GenerateRecommendations | src/core/entities/quality-assessment.ts:81-100 | the push loop returns exactly `Recommendations` and at least one message |
| AssessQuality.GradedResultsAreValuedParameters | src/core/use-cases/assess-quality.ts:27-41 | the results are, in configuration order, exactly the parameters that have a value, each graded with its own bands, with its value, name and unit copied |
| AssessQuality.GradesOf | src/core/use-cases/assess-quality.ts:32 | the grades list is as long as the results list |
| AssessQuality.AssessQuality | src/core/use-cases/assess-quality.ts:20-56 | the results are the valued parameters graded in order; the overall grade is that of their grades; the label, retail readiness (iff not C) and recommendations derive from them; the commodity name comes from the configuration; the timestamp is the caller's clock |
| AssessQuality.NoValuesGradesC | src/core/use-cases/assess-quality.ts:27-43 | with no value supplied there are no results and the overall grade is C |
| AssessQuality.CountGradesPartition | src/core/use-cases/assess-quality.ts:61-67 | the A, B and C counts add up to the number of results |
| AssessQuality.CountGradeIsMultiplicity | src/core/use-cases/assess-quality.ts:63-65 | each count is the number of results carrying that grade |
| AssessQuality.GetParameterGradeDistribution | src/core/use-cases/assess-quality.ts:58-68 | the counter loop returns the per-grade counts, which sum to the number of results |
| AssessQuality.TotalPointsBounds | src/core/use-cases/assess-quality.ts:71-73 | the point total lies in [40·n, 100·n] and equals 100·n iff every result is A |
| AssessQuality.QualityIndex | src/core/use-cases/assess-quality.ts:70-75 | NaN (`None`) iff the list is empty; otherwise in [40, 100], and exactly 100 iff every result is A |
| AssessQuality.WorstFirst | src/core/use-cases/assess-quality.ts:83-84 | a permutation of the results with non-decreasing grade value (C, then B, then A) |
| AssessQuality.WorstFirstStable | src/core/use-cases/assess-quality.ts:83-84 | results with the same grade keep their input order |
| AssessQuality.WorstParameters | src/core/use-cases/assess-quality.ts:77-86 | min(limit, n) results for a non-negative limit; a prefix of the worst-first copy; a sub-multiset of the input; none is better than any result left out |
| AssessQuality.ErrorFor | src/core/use-cases/assess-quality.ts:95-109 | each parameter contributes at most one error |
| AssessQuality.ValidationErrors | src/core/use-cases/assess-quality.ts:94-110 | there are no more errors than parameters |
| AssessQuality.NoErrorsIffAllAcceptable | src/core/use-cases/assess-quality.ts:94-115 | no errors iff every parameter's value is present, numeric and non-negative |
| AssessQuality.NegativeValueReported | src/core/use-cases/assess-quality.ts:107-109 | a negative value always produces "… tidak boleh negatif." under the parameter's name |
| AssessQuality.ValidateAssessmentInput | src/core/use-cases/assess-quality.ts:88-116 | the loop's errors are `ValidationErrors`; valid iff there are none, iff every value is acceptable |
| MarketAnalysis.StatusOf | src/core/entities/market-analysis.ts:43-49 | Surplus iff surplus > 0.1·consumption; Deficit iff not that and surplus < −0.1·consumption; Balanced iff within ±0.1·consumption |
| MarketAnalysis.CalculateSurplusDeficit | src/core/entities/market-analysis.ts:36-52 | surplus = production − consumption, with the status `StatusOf` assigns it |
| MarketAnalysis.MatchedProductionIsBalanced | src/core/entities/market-analysis.ts:43-49 | production equal to a non-negative consumption is Balanced |
| MarketAnalysis.StatusMonotoneInProduction | src/core/entities/market-analysis.ts:40-49 | at a fixed consumption, more production never gives a worse status |
| MarketAnalysis.StatusLabel | src/core/entities/market-analysis.ts:63-70 | every status has a non-empty label |
| MarketAnalysis.StatusLabelInjective | src/core/entities/market-analysis.ts:63-70 | distinct statuses have distinct labels |
| MarketAnalysis.FeasibilityScore | src/core/entities/market-analysis.ts:72-83 | Medium when the distance is absent or 0; otherwise High iff deficit/distance > 1000 and Low iff ≤ 100 |
| MarketAnalysis.FeasibilityMonotoneInDeficit | src/core/entities/market-analysis.ts:78-82 | at a fixed positive distance, a larger deficit never lowers the tier |
| MarketAnalysis.FeasibilityAntitoneInDistance | src/core/entities/market-analysis.ts:78-82 | for a non-negative deficit, a farther market never gets a higher tier |
| MarketAnalysis.TotalDemandPrefix | src/core/entities/market-analysis.ts:104-108 | prefix sums of \|deficit\| are non-negative and never decrease |
| MarketAnalysis.CountCovered | src/core/entities/market-analysis.ts:105-109 | the coverage count never exceeds the number of targets |
| MarketAnalysis.CoveredIsPrefix | src/core/entities/market-analysis.ts:105-109 | index i is counted iff i is below the count, iff the prefix sum up to i is ≤ the surplus: the covered targets form a prefix |
| MarketAnalysis.AllPrefixesCovered | src/core/entities/market-analysis.ts:105-117 | a surplus covering the total demand covers every target |
| MarketAnalysis.HighCountPositive | src/core/entities/market-analysis.ts:124-125 | the high-feasibility count is positive iff some target is High |
| MarketAnalysis.MarketInsights | src/core/entities/market-analysis.ts:85-132 | exactly the "no market" insight without targets; otherwise 2 to 4 insights, the first naming targets[0] with its \|deficit\| |
| MarketAnalysis.MarketInsightsContents | src/core/entities/market-analysis.ts:111-129 | "fully covers" iff surplus ≥ total demand, the percentage insight iff surplus < total demand, the coverage insight iff the count is positive, the high-feasibility insight iff the high count is positive |
| MarketAnalysis.NoHighTargetNoHighInsight | src/core/entities/market-analysis.ts:124-129 | without a High target no high-feasibility insight appears |
| MarketAnalysis.FullCoverageCountsAll | src/core/entities/market-analysis.ts:104-118 | when the surplus covers the total demand, the coverage insight counts every target |
| MarketAnalysis.ShortSurplusCoversNone | src/core/entities/market-analysis.ts:105-115 | a surplus short of the first target's demand covers no region and emits no coverage insight |
| MarketAnalysis.GenerateMarketInsights | src/core/entities/market-analysis.ts:85-132 | the successive pushes produce exactly `MarketInsights` |
| AnalyzeSurplusDeficit.FindDeficitRegions | src/core/use-cases/analyze-surplus-deficit.ts:11-18 | a permutation of the commodity's deficit records, with non-decreasing surplus (deepest deficit first) |
| AnalyzeSurplusDeficit.FindDeficitRegionsExact | src/core/use-cases/analyze-surplus-deficit.ts:15-16 | a record is returned iff it is in the input, is of the commodity and has Deficit status |
| AnalyzeSurplusDeficit.FindDeficitRegionsStable | src/core/use-cases/analyze-surplus-deficit.ts:17 | records with equal surplus keep their input order |
| AnalyzeSurplusDeficit.FindSurplusRegions | src/core/use-cases/analyze-surplus-deficit.ts:20-27 | a permutation of the commodity's surplus records, with non-increasing surplus |
| AnalyzeSurplusDeficit.FindSurplusRegionsExact | src/core/use-cases/analyze-surplus-deficit.ts:24-25 | a record is returned iff it is in the input, is of the commodity and has Surplus status |
| AnalyzeSurplusDeficit.FindSurplusRegionsStable | src/core/use-cases/analyze-surplus-deficit.ts:26 | records with equal surplus keep their input order |
| AnalyzeSurplusDeficit.DeficitAndSurplusDisjoint | src/core/use-cases/analyze-surplus-deficit.ts:11-27 | no record is both a deficit and a surplus region |
| AnalyzeSurplusDeficit.RegionCoordinates | src/core/use-cases/analyze-surplus-deficit.ts:125-140 | the table entry for a known id; (−2.5489, 118.0149) for any other id |
| AnalyzeSurplusDeficit.CoordinateTableLookups | src/core/use-cases/analyze-surplus-deficit.ts:126-139 | the built-in table answers its own entries and falls back for unknown ids |
| AnalyzeSurplusDeficit.GenerateTargetMarkets | src/core/use-cases/analyze-surplus-deficit.ts:29-49 | one target per region, in order; rank = index + 1; deficitAmount = surplus; estimatedDemand = \|surplus\|; feasibility from demand and distance; no source means no distance and every target Medium; with a source, each distance is `geo.distance` from the source to the region's `RegionCoordinates` (table entry or centroid) |
| AnalyzeSurplusDeficit.GenerateTargetMarketsPrefix | src/core/use-cases/analyze-surplus-deficit.ts:33-48 | the targets of a prefix of the regions are the prefix of the targets |
| AnalyzeSurplusDeficit.TargetDemandIsRegionDeficit | src/core/use-cases/analyze-surplus-deficit.ts:44 | the targets' total demand equals the regions' total \|surplus\| |
| AnalyzeSurplusDeficit.AnalyzeMarket | src/core/use-cases/analyze-surplus-deficit.ts:51-77 | the source's commodity, name and surplus are copied; the targets are exactly those built, without a source location, from the commodity's deficit regions worst first, so each is without distance and Medium; the insights for the source's surplus; the total demand is the sum of the targets' \|deficitAmount\|, equal to the regions' total \|surplus\| and ≥ 0 |
| AnalyzeSurplusDeficit.AnalyzeMarketHasNoHighInsight | src/core/use-cases/analyze-surplus-deficit.ts:56-62 | the analysis never reports high-feasibility markets |
| AnalyzeSurplusDeficit.ByFeasibility | src/core/use-cases/analyze-surplus-deficit.ts:86-90 | a permutation of the targets with non-increasing tier (high 3, medium 2, low 1) |
| AnalyzeSurplusDeficit.ByFeasibilityStable | src/core/use-cases/analyze-surplus-deficit.ts:86-90 | targets of the same tier keep their input order |
| AnalyzeSurplusDeficit.GreedyPlan | src/core/use-cases/analyze-surplus-deficit.ts:92-98 | the plan is no longer than the sorted targets |
| AnalyzeSurplusDeficit.GreedyPlanAt | src/core/use-cases/analyze-surplus-deficit.ts:92-98 | allocation i goes to the i-th sorted market, while surplus still remained, and is min(remaining, \|deficit\|) ≥ 0 |
| AnalyzeSurplusDeficit.GreedyPlanTotal | src/core/use-cases/analyze-surplus-deficit.ts:92-98 | with a positive surplus the allocations total min(surplus, total demand) |
| AnalyzeSurplusDeficit.DemandIsOrderFree | src/core/use-cases/analyze-surplus-deficit.ts:86-90 | sorting by feasibility does not change the total demand |
| AnalyzeSurplusDeficit.CalculateDistributionPlan | src/core/use-cases/analyze-surplus-deficit.ts:79-101 | the plan is exactly the greedy plan over the feasibility-sorted copy of the targets |
| AnalyzeSurplusDeficit.AllocateInOrder | src/core/use-cases/analyze-surplus-deficit.ts:92-98 | the loop that decrements the remaining surplus and stops when it is used up returns exactly `GreedyPlan` over the given order |
| AnalyzeSurplusDeficit.DistributionPlanTotal | src/core/use-cases/analyze-surplus-deficit.ts:79-101 | the plan is empty when the surplus is ≤ 0; otherwise it allocates min(surplus, total demand), never more than the surplus |
| AnalyzeSurplusDeficit.StatusCountsPartition | src/core/use-cases/analyze-surplus-deficit.ts:157-167 | the surplus, deficit and balanced counts add up to the number of regions |
| AnalyzeSurplusDeficit.DeficitSumNonNegative | src/core/use-cases/analyze-surplus-deficit.ts:162 | the deficit total is ≥ 0 |
| AnalyzeSurplusDeficit.DeficitSumOfDeficitRegions | src/core/use-cases/analyze-surplus-deficit.ts:161-163 | over deficit records only, the summary counts every record and totals exactly their \|surplus\| |
| AnalyzeSurplusDeficit.GetSurplusDeficitSummary | src/core/use-cases/analyze-surplus-deficit.ts:142-176 | the five accumulators hold the per-status sums and counts; the counts sum to the number of regions; the deficit total is ≥ 0 |
| Regions.FindDistrict | src/core/entities/region.ts:42-46 | a returned district is the first one in the list carrying the id (`FirstDistrictAt`); none is returned iff no district carries it |
| Regions.FindInRegencies | src/core/entities/region.ts:38-47 | the returned regency is the first one holding the id itself or in a district (`FirstRegencyAt`); a regency carrying the id is returned without a district, before its districts are scanned; otherwise the district is the first matching one of that regency; nothing is found iff no regency or district carries it |
| Regions.Find | src/core/entities/region.ts:30-50 | the province is the first one holding the id at any level (`FirstProvinceAt`); a province carrying the id is returned alone, before its regencies are scanned; otherwise regency and district are `FindInRegencies` over its regencies; deeper levels come only with their enclosing ones, each containing the next; the empty result iff nothing in the hierarchy carries it |
| Regions.FindFirstMatchWins | src/core/entities/region.ts:34-48 | a match is never displaced by provinces further on |
| Regions.FindSkipsUnmatched | src/core/entities/region.ts:34-48 | provinces without a match are passed over |
| Regions.FindRegionById | src/core/entities/region.ts:30-50 | the triple loop with early returns computes `Find` |
| Regions.RegionName | src/core/entities/region.ts:52-62 | "Unknown" when nothing is found; otherwise the name of the most specific level `findRegionById` found: the district's, else the regency's, else the province's (which carries the id) |
| Regions.RegionNameIsLastPathPart | src/core/entities/region.ts:52-75 | for a found id, the reported name is the last part of the full region path |
| Regions.UnknownIdIsUnknown | src/core/entities/region.ts:58-61 | an id that nothing carries is named "Unknown" |
| Regions.PathParts | src/core/entities/region.ts:70-73 | no parts when nothing is found |
| Regions.GetFullRegionPath | src/core/entities/region.ts:64-76 | the found names, province first, joined by " > "; "" when nothing is found |
| Regions.FoundNames | src/core/entities/region.ts:70-73 | the conditional pushes produce exactly `PathParts` of the lookup: province, regency, district names for the levels present |
| Regions.PathEndsWithRegionName | src/core/entities/region.ts:70-75 | a found path starts with the province's name and ends with the name `getRegionName` returns |
| Regions.JoinPrefix | src/core/entities/region.ts:75 | a joined list starts with its first part and ends with its last |
| Store.MergeFilters | src/presentation/stores/commodity-store.ts:61-64 | every supplied field is overwritten and every other field keeps its value |
| Store.MergeLocation | src/presentation/stores/commodity-store.ts:56-59 | every supplied level, including an explicit null, is overwritten and every other level keeps its value |
| Store.MergeFiltersCompose | src/presentation/stores/commodity-store.ts:61-64 | two setFilters calls equal one with the combined patch, the later call winning; repeating a call changes nothing |
| Store.MergeFiltersEmpty | src/presentation/stores/commodity-store.ts:61-64 | an empty patch leaves the filters as they are |
| Store.ResetIsFullPatch | src/presentation/stores/commodity-store.ts:34-39 | resetting equals supplying every default field, whatever the filters were before |
| Store.MergeLocationIdempotent | src/presentation/stores/commodity-store.ts:56-59 | repeating a setLocation call changes nothing, and an empty patch changes nothing |
| Store.CommodityStore.constructor | src/presentation/stores/commodity-store.ts:41-50 | the initial state: no commodities, no selection, no location, the default filters, not loading |
| Store.CommodityStore.SetCommodities | src/presentation/stores/commodity-store.ts:52 | replaces the list; every other field is unchanged |
| Store.CommodityStore.SelectCommodity | src/presentation/stores/commodity-store.ts:54 | sets or clears the selection; every other field is unchanged |
| Store.CommodityStore.SetLocation | src/presentation/stores/commodity-store.ts:56-59 | the location becomes the merge of the old one with the patch; every other field is unchanged |
| Store.CommodityStore.SetFilters | src/presentation/stores/commodity-store.ts:61-64 | the filters become the merge of the old ones with the patch; every other field is unchanged |
| Store.CommodityStore.ResetFilters | src/presentation/stores/commodity-store.ts:66 | the filters become the defaults (category all, minRCA 0, sort final, empty query); every other field is unchanged |
| Store.CommodityStore.SetLoading | src/presentation/stores/commodity-store.ts:68 | sets the flag; every other field is unchanged |
| Store.FilteredView | src/presentation/stores/commodity-store.ts:71-104 | a permutation of the commodities that pass every active filter, sorted non-increasing by the chosen key (by ascending collation for name) |
| Store.FilteredViewExact | src/presentation/stores/commodity-store.ts:74-85 | a commodity is in the view iff it is in the store and passes every active filter |
| Store.EmptyQueryKeepsAllNames | src/presentation/stores/commodity-store.ts:82-85 | an empty search query applies no name filter |
| Store.DefaultViewIsRanking | src/presentation/stores/commodity-store.ts:71-101 | with the default filters nothing is dropped and the view is `rankCommodities` by final score |
| Store.FilteredViewStable | src/presentation/stores/commodity-store.ts:87-101 | commodities with equal sort keys keep the store's order |
| Store.GetFilteredCommodities | src/presentation/stores/commodity-store.ts:71-104 | the step-by-step filtering and sorting of a copy yields exactly `FilteredView`; the store is only read |

Specification functions without contracts of their own, which the members
above are stated against:

- `AssessQuality.GradedResults` (src/core/use-cases/assess-quality.ts:27-41): the valued parameters, each graded, in configuration order.
- `Regions.Join` (src/core/entities/region.ts:75): `Array.prototype.join`.
- `Store.Contains` (src/presentation/stores/commodity-store.ts:84): `String.prototype.includes`, some contiguous slice equals the needle.
- `Regions.FirstDistrictAt`, `Regions.FirstRegencyAt`, `Regions.FirstProvinceAt`: "the first match in list order" at each level of the hierarchy.

## Left out

- `estimateDistance` and `toRad` (src/core/use-cases/analyze-surplus-deficit.ts:103-123) use a haversine over floating point (`sin`, `cos`, `atan2`, `sqrt`, `Math.round`). They are a parameter of `Geo`, a function returning a non-negative whole number of kilometres.
- AnalyzeSurplusDeficit.RegionCoordinates: the lookup uses `||` on a plain object, so ids such as "constructor" would find `Object.prototype` members. The model takes the table as a map and does not model prototype keys. The source's ten entries are `CoordinateTable`.
- Number formatting (`formatNumber` via `Intl.NumberFormat` and the `toFixed(1)` percentage) is not modelled. Insights are tokens carrying the numbers they print.
- AssessQuality.AssessQuality: the `QUALITY_THRESHOLDS[commodityType]` lookup indexes a plain object, so keys such as "constructor" would find `Object.prototype` members. The configuration is a map here and prototype keys are not modelled.
- AssessQuality.AssessQuality: `assessedAt: new Date()` reads the clock. It is an integer parameter.
- `toLowerCase` and `localeCompare` in the store query are parameters. The first is a string map; the second is a collation key, which assumes the runtime's collation is a total preorder.
- Store.GetFilteredCommodities: the sort works in place on a local copy of the list. It is modelled as reassigning a sequence, since the copy is never shared.
- The zustand `create` wiring is not modelled; the state is a plain class. The setter semantics are modelled for supplied fields only: a field explicitly set to `undefined` in a patch is not modelled.
- src/presentation/stores/ui-store.ts is not part of this model. It holds UI toggles and notification ids from `crypto.randomUUID`.
- The `.tsx` components, getGradeColor and getStatusColor only render or choose display colours, and are not modelled.
- AssessQuality.AssessQuality: a supplied value of NaN is graded C in the source, because every band comparison in `determineGrade` fails. Values are finite reals here, so that case is not modelled.
- QualityAssessment.GetRecommendation: the optional-chained lookup would also find `Object.prototype` members for keys like "constructor". The table is a map here.
- AssessQuality.ValidateAssessmentInput: a raw value is one of Null, NonNumber, NaN or a number. `undefined` and a missing key are both an absent map entry.
- CalculateRca.FinalScore: the [0, 100] bound is stated for non-negative scores only, because the code has no lower clamp.
