/** The quality-assessment use cases: grading the supplied parameter values
    against a commodity's configuration, the grade distribution, the 0-100
    quality index, the worst parameters and the advisory input check. */
module AssessQuality {

  import opened Common
  import opened Sorting
  import opened QualityAssessment

  /** The values the caller measured, keyed by parameter id. */
  datatype QualityAssessmentInput = QualityAssessmentInput(
    commodityType: string, parameterValues: map<string, real>)

  /** The result a parameter with a value contributes. */
  function ResultFor(p: QualityParameter, value: real): ParameterResult
  {
    ParameterResult(p.id, p.name, value, p.unit, DetermineGrade(value, p.thresholds))
  }

  function HasValue(values: map<string, real>): QualityParameter -> bool
  {
    (p: QualityParameter) => p.id in values
  }

  /** The results the loop of `assessQuality` collects, in configuration order. */
  function GradedResults(ps: seq<QualityParameter>, values: map<string, real>): seq<ParameterResult>
  {
    if ps == [] then []
    else
      var last := ps[|ps| - 1];
      GradedResults(ps[..|ps| - 1], values)
        + (if last.id in values then [ResultFor(last, values[last.id])] else [])
  }

  /** The collected results are exactly the configured parameters that have
      a value, in configuration order, each graded against its own bands. */
  lemma {:induction false} GradedResultsAreValuedParameters(ps: seq<QualityParameter>, values: map<string, real>)
    ensures |GradedResults(ps, values)| == |Filter(ps, HasValue(values))|
    ensures forall i :: 0 <= i < |GradedResults(ps, values)| ==>
      Filter(ps, HasValue(values))[i].id in values &&
      GradedResults(ps, values)[i]
        == ResultFor(Filter(ps, HasValue(values))[i], values[Filter(ps, HasValue(values))[i].id])
  {
    if ps != [] {
      var init, last := ps[..|ps| - 1], ps[|ps| - 1];
      GradedResultsAreValuedParameters(init, values);
      assert ps == init + [last];
      FilterAppend(init, last, HasValue(values));
    }
  }

  /** The grades of a list of results, in order. */
  function GradesOf(results: seq<ParameterResult>): (grades: seq<Grade>)
    ensures |grades| == |results|
  {
    seq(|results|, i requires 0 <= i < |results| => results[i].grade)
  }

  /** `assessQuality`: grades every configured parameter that has a value,
      skipping the others, and derives the overall grade, its label, retail
      readiness and the recommendations. `now` is the caller's clock. */
  method AssessQuality(input: QualityAssessmentInput, config: CommodityQualityConfig, now: int)
    returns (r: QualityAssessmentResult)
    ensures r.parameterResults == GradedResults(config.parameters, input.parameterValues)
    ensures r.overallGrade == OverallGrade(GradesOf(r.parameterResults))
    ensures r.gradeLabel == GradeLabel(r.overallGrade)
    ensures r.isRetailReady <==> r.overallGrade != C
    ensures r.recommendations == Recommendations(input.commodityType, r.parameterResults)
    ensures r.commodityType == input.commodityType && r.commodityName == config.name
    ensures r.assessedAt == now
  {
    var parameterResults: seq<ParameterResult> := [];
    var grades: seq<Grade> := [];
    var ps := config.parameters;
    var i := 0;
    while i < |ps|
      invariant 0 <= i <= |ps|
      invariant parameterResults == GradedResults(ps[..i], input.parameterValues)
      invariant grades == GradesOf(parameterResults)
    {
      var parameter := ps[i];
      assert ps[..i + 1][..i] == ps[..i];
      if parameter.id in input.parameterValues {
        var value := input.parameterValues[parameter.id];
        var grade := DetermineGrade(value, parameter.thresholds);
        grades := grades + [grade];
        parameterResults := parameterResults
          + [ParameterResult(parameter.id, parameter.name, value, parameter.unit, grade)];
      }
      i := i + 1;
    }
    assert ps[..i] == ps;
    var overallGrade := OverallGrade(grades);
    var recommendations := GenerateRecommendations(input.commodityType, parameterResults);
    r := QualityAssessmentResult(
      input.commodityType, config.name, overallGrade, GradeLabel(overallGrade),
      IsRetailReady(overallGrade), parameterResults, recommendations, now);
  }

  /** A missing value never blocks an assessment: with no value at all the
      overall grade is C (the empty average). */
  lemma NoValuesGradesC(ps: seq<QualityParameter>, values: map<string, real>)
    requires forall i :: 0 <= i < |ps| ==> ps[i].id !in values
    ensures GradedResults(ps, values) == []
    ensures OverallGrade(GradesOf(GradedResults(ps, values))) == C
  {
    GradedResultsAreValuedParameters(ps, values);
    if |Filter(ps, HasValue(values))| > 0 {
      var p := Filter(ps, HasValue(values))[0];
      assert p in Filter(ps, HasValue(values));
      FilterContains(ps, HasValue(values), p);
      assert false;
    }
  }

  datatype GradeDistribution = GradeDistribution(a: nat, b: nat, c: nat)

  /** How many results carry grade `g`. */
  function CountGrade(results: seq<ParameterResult>, g: Grade): nat
  {
    if results == [] then 0
    else CountGrade(results[..|results| - 1], g) + (if results[|results| - 1].grade == g then 1 else 0)
  }

  /** The three counts partition the results. */
  lemma {:induction false} CountGradesPartition(results: seq<ParameterResult>)
    ensures CountGrade(results, A) + CountGrade(results, B) + CountGrade(results, C) == |results|
  {
    if results != [] {
      CountGradesPartition(results[..|results| - 1]);
    }
  }

  /** The count of a grade is its multiplicity among the grades. */
  lemma {:induction false} CountGradeIsMultiplicity(results: seq<ParameterResult>, g: Grade)
    ensures CountGrade(results, g) == multiset(GradesOf(results))[g]
  {
    if results != [] {
      var init := results[..|results| - 1];
      CountGradeIsMultiplicity(init, g);
      assert GradesOf(results) == GradesOf(init) + [results[|results| - 1].grade];
    }
  }

  /** `getParameterGradeDistribution`: one counter increment per result. */
  method GetParameterGradeDistribution(results: seq<ParameterResult>) returns (d: GradeDistribution)
    ensures d.a == CountGrade(results, A) && d.b == CountGrade(results, B) && d.c == CountGrade(results, C)
    ensures d.a + d.b + d.c == |results|
  {
    d := GradeDistribution(0, 0, 0);
    var i := 0;
    while i < |results|
      invariant 0 <= i <= |results|
      invariant d.a == CountGrade(results[..i], A)
      invariant d.b == CountGrade(results[..i], B)
      invariant d.c == CountGrade(results[..i], C)
    {
      assert results[..i + 1][..i] == results[..i];
      match results[i].grade {
        case A => d := d.(a := d.a + 1);
        case B => d := d.(b := d.b + 1);
        case C => d := d.(c := d.c + 1);
      }
      i := i + 1;
    }
    assert results[..i] == results;
    CountGradesPartition(results);
  }

  /** The points `calculateQualityIndex` gives a grade. */
  function IndexPoints(g: Grade): real
  {
    match g
    case A => 100.0
    case B => 70.0
    case C => 40.0
  }

  function TotalPoints(results: seq<ParameterResult>): real
  {
    if results == [] then 0.0
    else TotalPoints(results[..|results| - 1]) + IndexPoints(results[|results| - 1].grade)
  }

  predicate AllGradeA(results: seq<ParameterResult>)
  {
    forall i :: 0 <= i < |results| ==> results[i].grade == A
  }

  lemma {:induction false} TotalPointsBounds(results: seq<ParameterResult>)
    ensures 40.0 * (|results| as real) <= TotalPoints(results) <= 100.0 * (|results| as real)
    ensures TotalPoints(results) == 100.0 * (|results| as real) <==> AllGradeA(results)
  {
    if results != [] {
      var init := results[..|results| - 1];
      TotalPointsBounds(init);
      if AllGradeA(results) {
        assert AllGradeA(init) by {
          forall i | 0 <= i < |init| ensures init[i].grade == A {
            assert init[i] == results[i];
          }
        }
      }
    }
  }

  lemma AverageBounds(total: real, n: real)
    requires n > 0.0 && 40.0 * n <= total <= 100.0 * n
    ensures 40.0 <= total / n <= 100.0
    ensures total / n == 100.0 <==> total == 100.0 * n
  {
    assert (total / n) * n == total;
  }

  /** `calculateQualityIndex`: the average of A=100, B=70, C=40. An empty
      list divides 0 by 0 and gives NaN, modelled as `None`. */
  function QualityIndex(results: seq<ParameterResult>): (index: Option<real>)
    ensures index == None <==> |results| == 0
    ensures index.Some? ==> 40.0 <= index.value <= 100.0
    ensures index.Some? ==> (index.value == 100.0 <==> AllGradeA(results))
  {
    if |results| == 0 then None
    else
      var n := |results| as real;
      var total := TotalPoints(results);
      TotalPointsBounds(results);
      AverageBounds(total, n);
      Some(total / n)
  }

  /** Sorting key of `getWorstParameters`: ascending grade value, as the
      descending sort on its negation. */
  function WorstKey(): ParameterResult -> real
  {
    (r: ParameterResult) => -(GradeValue(r.grade) as real)
  }

  /** The sorted copy: C first, then B, then A, ties in input order. */
  function WorstFirst(results: seq<ParameterResult>): (sorted: seq<ParameterResult>)
    ensures |sorted| == |results| && multiset(sorted) == multiset(results)
    ensures forall i, j :: 0 <= i < j < |sorted| ==> GradeValue(sorted[i].grade) <= GradeValue(sorted[j].grade)
  {
    SortDescSorted(results, WorstKey());
    var sorted := SortDesc(results, WorstKey());
    assert forall i, j :: 0 <= i < j < |sorted| ==> WorstKey()(sorted[i]) >= WorstKey()(sorted[j]);
    sorted
  }

  /** Grades of equal value keep their input order. */
  lemma WorstFirstStable(results: seq<ParameterResult>, k: real)
    ensures SameKey(WorstFirst(results), WorstKey(), k) == SameKey(results, WorstKey(), k)
  {
    SortDescStable(results, WorstKey(), k);
  }

  /** The number of results `getWorstParameters` keeps when no limit is given. */
  const DefaultWorstLimit: int := 3

  /** `getWorstParameters`: the first `limit` entries of the worst-first copy. */
  function WorstParameters(results: seq<ParameterResult>, limit: int): (worst: seq<ParameterResult>)
    ensures |worst| <= |results|
    ensures 0 <= limit ==> |worst| == if limit < |results| then limit else |results|
    ensures worst == WorstFirst(results)[..|worst|]
    ensures multiset(worst) <= multiset(results)
    ensures forall i, j :: 0 <= i < |worst| <= j < |results| ==>
      GradeValue(worst[i].grade) <= GradeValue(WorstFirst(results)[j].grade)
  {
    var sorted := WorstFirst(results);
    var worst := SliceTo(sorted, limit);
    PrefixSubMultiset(sorted, |worst|);
    worst
  }

  lemma PrefixSubMultiset<T>(s: seq<T>, n: nat)
    requires n <= |s|
    ensures multiset(s[..n]) <= multiset(s)
  {
    assert s == s[..n] + s[n..];
  }

  /** A raw form value, before any type check. */
  datatype RawValue = Null | NonNumber | NaN | Number(v: real)

  datatype RawAssessmentInput = RawAssessmentInput(
    commodityType: string, parameterValues: map<string, RawValue>)

  function RequiredMessage(name: string): string { name + " harus diisi." }
  function NotNumberMessage(name: string): string { name + " harus berupa angka." }
  function NegativeMessage(name: string): string { name + " tidak boleh negatif." }

  /** The error (if any) one parameter contributes. */
  function ErrorFor(p: QualityParameter, values: map<string, RawValue>): (errors: seq<string>)
    ensures |errors| <= 1
  {
    if p.id !in values || values[p.id] == Null then [RequiredMessage(p.name)]
    else if values[p.id] == NonNumber || values[p.id] == NaN then [NotNumberMessage(p.name)]
    else if values[p.id].v < 0.0 then [NegativeMessage(p.name)]
    else []
  }

  /** A value the check accepts: present, numeric and non-negative. */
  predicate Acceptable(p: QualityParameter, values: map<string, RawValue>)
  {
    p.id in values && values[p.id].Number? && values[p.id].v >= 0.0
  }

  /** The errors of the loop, in configuration order. */
  function ValidationErrors(ps: seq<QualityParameter>, values: map<string, RawValue>): (errors: seq<string>)
    ensures |errors| <= |ps|
  {
    if ps == [] then []
    else ValidationErrors(ps[..|ps| - 1], values) + ErrorFor(ps[|ps| - 1], values)
  }

  /** No error at all exactly when every configured parameter is acceptable. */
  lemma {:induction false} NoErrorsIffAllAcceptable(ps: seq<QualityParameter>, values: map<string, RawValue>)
    ensures ValidationErrors(ps, values) == [] <==>
      forall i :: 0 <= i < |ps| ==> Acceptable(ps[i], values)
  {
    if ps != [] {
      var init := ps[..|ps| - 1];
      NoErrorsIffAllAcceptable(init, values);
      assert forall i :: 0 <= i < |init| ==> init[i] == ps[i];
    }
  }

  /** A negative value is always reported, under the parameter's name. */
  lemma {:induction false} NegativeValueReported(ps: seq<QualityParameter>, values: map<string, RawValue>, i: nat)
    requires i < |ps| && ps[i].id in values && values[ps[i].id].Number? && values[ps[i].id].v < 0.0
    ensures NegativeMessage(ps[i].name) in ValidationErrors(ps, values)
  {
    var init := ps[..|ps| - 1];
    if i < |ps| - 1 {
      assert init[i] == ps[i];
      NegativeValueReported(init, values, i);
    }
  }

  /** `validateAssessmentInput`: at most one error per parameter (missing,
      not a number, negative), valid exactly when there is none. */
  method ValidateAssessmentInput(input: RawAssessmentInput, config: CommodityQualityConfig)
    returns (isValid: bool, errors: seq<string>)
    ensures errors == ValidationErrors(config.parameters, input.parameterValues)
    ensures isValid <==> errors == []
    ensures isValid <==> forall i :: 0 <= i < |config.parameters| ==>
      Acceptable(config.parameters[i], input.parameterValues)
  {
    errors := [];
    var ps := config.parameters;
    var i := 0;
    while i < |ps|
      invariant 0 <= i <= |ps|
      invariant errors == ValidationErrors(ps[..i], input.parameterValues)
    {
      var parameter := ps[i];
      assert ps[..i + 1][..i] == ps[..i];
      if parameter.id !in input.parameterValues || input.parameterValues[parameter.id] == Null {
        errors := errors + [RequiredMessage(parameter.name)];
        i := i + 1;
        continue;
      }
      var value := input.parameterValues[parameter.id];
      if !value.Number? {
        errors := errors + [NotNumberMessage(parameter.name)];
        i := i + 1;
        continue;
      }
      if value.v < 0.0 {
        errors := errors + [NegativeMessage(parameter.name)];
      }
      i := i + 1;
    }
    assert ps[..i] == ps;
    isValid := |errors| == 0;
    NoErrorsIffAllAcceptable(ps, input.parameterValues);
  }
}
