/** Quality grading entities: inclusive threshold bands, the per-parameter
    grade, the averaged overall grade, retail readiness, labels and the
    recommendation messages. */
module QualityAssessment {

  import opened Common

  datatype Grade = A | B | C

  /** An inclusive band [min, max]. */
  datatype Threshold = Threshold(min: real, max: real)

  datatype Thresholds = Thresholds(a: Threshold, b: Threshold, c: Threshold)

  datatype QualityParameter = QualityParameter(
    id: string, name: string, unit: string, description: string, thresholds: Thresholds)

  datatype CommodityQualityConfig = CommodityQualityConfig(
    name: string, parameters: seq<QualityParameter>)

  datatype ParameterResult = ParameterResult(
    parameterId: string, parameterName: string, value: real, unit: string, grade: Grade)

  /** `assessedAt` is the caller's clock reading, passed in. */
  datatype QualityAssessmentResult = QualityAssessmentResult(
    commodityType: string, commodityName: string, overallGrade: Grade, gradeLabel: string,
    isRetailReady: bool, parameterResults: seq<ParameterResult>,
    recommendations: seq<string>, assessedAt: int)

  /** `getGradeLabel`. */
  function GradeLabel(g: Grade): (text: string)
    ensures |text| > 0
  {
    match g
    case A => "Premium Quality"
    case B => "Standard Quality"
    case C => "Below Standard"
  }

  /** Each grade has its own label. */
  lemma GradeLabelInjective(g: Grade, h: Grade)
    requires g != h
    ensures GradeLabel(g) != GradeLabel(h)
  {
  }

  /** `isRetailReady`: grades A and B may be sold at retail. */
  function IsRetailReady(g: Grade): (ready: bool)
    ensures ready <==> g == A || g == B
    ensures !ready <==> g == C
  {
    g == A || g == B
  }

  predicate InBand(value: real, t: Threshold)
  {
    t.min <= value <= t.max
  }

  /** `determineGrade`: band A is tried first, then band B; everything else
      is C, whose own band is never consulted. */
  function DetermineGrade(value: real, t: Thresholds): (g: Grade)
    ensures g == A <==> InBand(value, t.a)
    ensures g == B <==> !InBand(value, t.a) && InBand(value, t.b)
    ensures g == C <==> !InBand(value, t.a) && !InBand(value, t.b)
  {
    if InBand(value, t.a) then A
    else if InBand(value, t.b) then B
    else C
  }

  /** The C band has no influence on the grade. */
  lemma DetermineGradeIgnoresBandC(value: real, t: Thresholds, other: Threshold)
    ensures DetermineGrade(value, t) == DetermineGrade(value, t.(c := other))
  {
  }

  /** The points `calculateOverallGrade` and `getWorstParameters` give a grade. */
  function GradeValue(g: Grade): nat
  {
    match g
    case A => 3
    case B => 2
    case C => 1
  }

  /** Sum of grade points, folded left to right. */
  function TotalValue(grades: seq<Grade>): nat
  {
    if grades == [] then 0 else TotalValue(grades[..|grades| - 1]) + GradeValue(grades[|grades| - 1])
  }

  /** The average grade value of a non-empty list. */
  function AverageValue(grades: seq<Grade>): real
    requires |grades| > 0
  {
    TotalValue(grades) as real / |grades| as real
  }

  /** `calculateOverallGrade`. An empty list averages 0/0 (NaN); both
      comparisons then fail and the result is C. */
  function OverallGrade(grades: seq<Grade>): (g: Grade)
    ensures |grades| == 0 ==> g == C
    ensures |grades| > 0 ==> (g == A <==> AverageValue(grades) >= 2.5)
    ensures |grades| > 0 ==> (g == B <==> 1.5 <= AverageValue(grades) < 2.5)
    ensures |grades| > 0 ==> (g == C <==> AverageValue(grades) < 1.5)
  {
    if |grades| == 0 then C
    else
      var average := AverageValue(grades);
      if average >= 2.5 then A
      else if average >= 1.5 then B
      else C
  }

  lemma {:induction false} TotalOfUniform(grades: seq<Grade>, g: Grade)
    requires forall i :: 0 <= i < |grades| ==> grades[i] == g
    ensures TotalValue(grades) == |grades| * GradeValue(g)
  {
    if grades != [] {
      TotalOfUniform(grades[..|grades| - 1], g);
    }
  }

  /** A non-empty list of one repeated grade has that grade overall. */
  lemma OverallGradeOfUniform(grades: seq<Grade>, g: Grade)
    requires |grades| > 0
    requires forall i :: 0 <= i < |grades| ==> grades[i] == g
    ensures OverallGrade(grades) == g
  {
    TotalOfUniform(grades, g);
    var n := |grades| as real;
    assert TotalValue(grades) as real == n * (GradeValue(g) as real);
    assert AverageValue(grades) == GradeValue(g) as real;
  }

  /** The grade total depends only on how many of each grade there are. */
  lemma {:induction false} TotalByCounts(grades: seq<Grade>)
    ensures TotalValue(grades)
         == 3 * multiset(grades)[A] + 2 * multiset(grades)[B] + multiset(grades)[C]
  {
    if grades != [] {
      var init := grades[..|grades| - 1];
      TotalByCounts(init);
      assert grades == init + [grades[|grades| - 1]];
      assert multiset(grades) == multiset(init) + multiset{grades[|grades| - 1]};
    }
  }

  /** The overall grade does not depend on the order of the parameters. */
  lemma OverallGradeOrderIndependent(s: seq<Grade>, t: seq<Grade>)
    requires multiset(s) == multiset(t)
    ensures OverallGrade(s) == OverallGrade(t)
  {
    TotalByCounts(s);
    TotalByCounts(t);
    assert |s| == |multiset(s)| == |multiset(t)| == |t|;
  }

  /** The worked examples: A, A, B averages 2.67 (A); C, C, B averages 1.33 (C). */
  lemma OverallGradeExamples()
    ensures OverallGrade([A, A, B]) == A
    ensures OverallGrade([C, C, B]) == C
  {
    assert [A, A, B][..2] == [A, A] && [A, A][..1] == [A] && [A][..0] == [];
    assert TotalValue([A, A, B]) == 8;
    assert [C, C, B][..2] == [C, C] && [C, C][..1] == [C] && [C][..0] == [];
    assert TotalValue([C, C, B]) == 4;
  }

  /** The two recommendation levels. */
  datatype Level = Critical | Improve

  /** The recommendation texts, keyed by commodity type, parameter id and level. */
  const RecommendationTable: map<string, map<string, map<Level, string>>> := map[
    "padi" := map[
      "patahan" := map[
        Critical := "Perbaiki proses penggilingan untuk mengurangi butir patah. Pertimbangkan upgrade mesin penggiling.",
        Improve := "Optimalkan kecepatan penggilingan untuk mengurangi patahan."],
      "kadarAir" := map[
        Critical := "Kadar air terlalu tinggi. Lakukan pengeringan ulang hingga mencapai standar maksimal 14%.",
        Improve := "Tingkatkan proses pengeringan untuk mencapai kadar air optimal."],
      "derajatSosoh" := map[
        Critical := "Derajat sosoh terlalu rendah. Perbaiki proses penyosohan beras.",
        Improve := "Tingkatkan derajat sosoh untuk mencapai standar premium."],
      "butirMerah" := map[
        Critical := "Terlalu banyak butir merah. Perbaiki proses sortasi dan grading.",
        Improve := "Lakukan sortasi lebih teliti untuk mengurangi butir merah."]],
    "jagung" := map[
      "kadarAir" := map[
        Critical := "Kadar air melebihi batas. Keringkan jagung hingga di bawah 13%.",
        Improve := "Optimalkan pengeringan untuk mencapai kadar air ideal."],
      "butirRusak" := map[
        Critical := "Banyak butir rusak. Perbaiki penanganan pasca panen dan penyimpanan.",
        Improve := "Tingkatkan proses sortasi untuk mengurangi butir rusak."],
      "kotoran" := map[
        Critical := "Kotoran melebihi standar. Lakukan pembersihan lebih intensif.",
        Improve := "Tambahkan proses pembersihan untuk mengurangi kotoran."],
      "kadarAflatoksin" := map[
        Critical := "Kadar aflatoksin berbahaya! Jangan dijual untuk konsumsi. Perbaiki penyimpanan.",
        Improve := "Perbaiki kondisi penyimpanan untuk mencegah pertumbuhan jamur."]],
    "kopi" := map[
      "defects" := map[
        Critical := "Nilai cacat terlalu tinggi. Perbaiki proses sortasi biji kopi.",
        Improve := "Tingkatkan ketelitian sortasi untuk mengurangi defect."],
      "kadarAir" := map[
        Critical := "Kadar air tidak optimal. Sesuaikan proses pengeringan.",
        Improve := "Fine-tune proses pengeringan untuk kadar air 10-12%."],
      "ukuranBiji" := map[
        Critical := "Ukuran biji tidak seragam. Gunakan screen untuk grading.",
        Improve := "Optimalkan proses grading untuk ukuran biji yang lebih seragam."],
      "warna" := map[
        Critical := "Keseragaman warna rendah. Perbaiki proses fermentasi dan pengeringan.",
        Improve := "Tingkatkan konsistensi proses untuk warna yang lebih seragam."]]
  ]

  /** The optional-chained table lookup. */
  function TableEntry(commodityType: string, parameterId: string, level: Level): Option<string>
  {
    if commodityType in RecommendationTable
       && parameterId in RecommendationTable[commodityType]
       && level in RecommendationTable[commodityType][parameterId]
    then Some(RecommendationTable[commodityType][parameterId][level])
    else None
  }

  /** The generic text used when the table has nothing (truthy) to say. */
  function GenericRecommendation(parameterId: string): string
  {
    "Perlu perbaikan pada parameter " + parameterId + "."
  }

  /** `getRecommendation`: the table text when there is a non-empty one,
      otherwise the generic text naming the parameter. */
  function GetRecommendation(commodityType: string, parameterId: string, level: Level): (text: string)
    ensures TableEntry(commodityType, parameterId, level).Some?
            && TableEntry(commodityType, parameterId, level).value != ""
            ==> text == TableEntry(commodityType, parameterId, level).value
    ensures TableEntry(commodityType, parameterId, level) == None ==> text == GenericRecommendation(parameterId)
    ensures text != ""
  {
    match TableEntry(commodityType, parameterId, level)
    case Some(entry) => if entry != "" then entry else GenericRecommendation(parameterId)
    case None => GenericRecommendation(parameterId)
  }

  /** A commodity type the table does not know always gets the generic text. */
  lemma UnknownCommodityGetsGenericText(commodityType: string, parameterId: string, level: Level)
    requires commodityType != "padi" && commodityType != "jagung" && commodityType != "kopi"
    ensures GetRecommendation(commodityType, parameterId, level) == GenericRecommendation(parameterId)
  {
  }

  /** The message pushed when no parameter needs attention. */
  const PremiumMessage: string :=
    "Kualitas produk sudah memenuhi standar premium. Pertahankan proses produksi saat ini."

  /** What one result contributes: a critical text for C, an improvement
      text for B, nothing for A. */
  function MessageFor(commodityType: string, result: ParameterResult): seq<string>
  {
    match result.grade
    case C => [GetRecommendation(commodityType, result.parameterId, Critical)]
    case B => [GetRecommendation(commodityType, result.parameterId, Improve)]
    case A => []
  }

  function MessagesOf(commodityType: string): ParameterResult -> seq<string>
  {
    (result: ParameterResult) => MessageFor(commodityType, result)
  }

  /** The messages the loop pushes, in result order. */
  function RequiredMessages(commodityType: string, results: seq<ParameterResult>): seq<string>
  {
    FlatMap(results, MessagesOf(commodityType))
  }

  /** The number of results graded B or C. */
  function CountBelowA(results: seq<ParameterResult>): nat
  {
    if results == [] then 0
    else CountBelowA(results[..|results| - 1]) + (if results[|results| - 1].grade == A then 0 else 1)
  }

  /** Exactly one message per result below A. */
  lemma {:induction false} RequiredMessagesCount(commodityType: string, results: seq<ParameterResult>)
    ensures |RequiredMessages(commodityType, results)| == CountBelowA(results)
  {
    if results != [] {
      RequiredMessagesCount(commodityType, results[..|results| - 1]);
    }
  }

  /** Messages follow result order: the messages of a concatenation are the
      concatenation of the messages. */
  lemma RequiredMessagesAppend(commodityType: string, s: seq<ParameterResult>, t: seq<ParameterResult>)
    ensures RequiredMessages(commodityType, s + t)
         == RequiredMessages(commodityType, s) + RequiredMessages(commodityType, t)
  {
    FlatMapAppend(s, t, MessagesOf(commodityType));
  }

  /** `generateRecommendations` as a value: the required messages, or the
      single premium message when there are none. */
  function Recommendations(commodityType: string, results: seq<ParameterResult>): (recs: seq<string>)
    ensures |recs| >= 1
    ensures RequiredMessages(commodityType, results) != [] ==> recs == RequiredMessages(commodityType, results)
    ensures RequiredMessages(commodityType, results) == [] ==> recs == [PremiumMessage]
  {
    var required := RequiredMessages(commodityType, results);
    if required == [] then [PremiumMessage] else required
  }

  /** With every result graded A the only recommendation is the premium message. */
  lemma AllAGivesPremium(commodityType: string, results: seq<ParameterResult>)
    requires forall i :: 0 <= i < |results| ==> results[i].grade == A
    ensures Recommendations(commodityType, results) == [PremiumMessage]
  {
    RequiredMessagesCount(commodityType, results);
    AllACountsZero(results);
  }

  lemma {:induction false} AllACountsZero(results: seq<ParameterResult>)
    requires forall i :: 0 <= i < |results| ==> results[i].grade == A
    ensures CountBelowA(results) == 0
  {
    if results != [] {
      AllACountsZero(results[..|results| - 1]);
    }
  }

  /** `generateRecommendations`: one push per B or C result, then the
      premium message if nothing was pushed. */
  method GenerateRecommendations(commodityType: string, results: seq<ParameterResult>)
    returns (recommendations: seq<string>)
    ensures recommendations == Recommendations(commodityType, results)
    ensures |recommendations| >= 1
  {
    recommendations := [];
    var i := 0;
    while i < |results|
      invariant 0 <= i <= |results|
      invariant recommendations == RequiredMessages(commodityType, results[..i])
    {
      var result := results[i];
      assert results[..i + 1][..i] == results[..i];
      if result.grade == C {
        recommendations := recommendations + [GetRecommendation(commodityType, result.parameterId, Critical)];
      } else if result.grade == B {
        recommendations := recommendations + [GetRecommendation(commodityType, result.parameterId, Improve)];
      }
      i := i + 1;
    }
    assert results[..i] == results;
    if |recommendations| == 0 {
      recommendations := recommendations + [PremiumMessage];
    }
  }
}
