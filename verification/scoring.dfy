/** The scoring engine of src/utils/video-processor.js: for a test type and an athlete it
    fabricates a result record from closed-form formulas and random jitter. Every
    `Math.random()` draw is a parameter in [0, 1); arithmetic is exact. */
module Scoring {
  import opened Wrappers

  /** The five keys of the processor dispatch table. */
  datatype TestType = VerticalJump | Situps | Sprint | Pushups | Flexibility

  /** The attributes the assessment form collects. */
  datatype AthleteData = AthleteData(name: string, age: int, gender: string, sport: string)

  datatype Tier = High | Medium | Low

  datatype Metrics = Metrics(primaryMetric: real, metricName: string, unit: string)

  datatype CheatDetection = CheatDetection(confidence: real, flags: seq<string>)

  /** The result record stored with an assessment. Records built by the sample-data
      generator carry no recommendations. */
  datatype Results = Results(
    overallScore: int,
    metrics: Metrics,
    percentile: int,
    qualityScore: real,
    cheatDetection: CheatDetection,
    recommendations: Option<seq<string>>)

  datatype ScoringError = UnknownTestType(testType: string)

  /** The random draws one processor makes, in the order it makes them (the draws for
      the string-formatted secondary metrics are not modelled). */
  datatype Draws = Draws(jitter: real, percentile: real, quality: real, confidence: real)

  /** A value `Math.random()` can return. */
  predicate IsDraw(r: real) {
    0.0 <= r < 1.0
  }

  predicate ValidDraws(d: Draws) {
    IsDraw(d.jitter) && IsDraw(d.percentile) && IsDraw(d.quality) && IsDraw(d.confidence)
  }

  function Key(t: TestType): string {
    match t
    case VerticalJump => "vertical_jump"
    case Situps => "situps"
    case Sprint => "sprint"
    case Pushups => "pushups"
    case Flexibility => "flexibility"
  }

  /** Lookup in the dispatch table; absent for every key but the five. */
  function ParseTestType(key: string): (r: Option<TestType>)
    ensures r.Some? ==> Key(r.value) == key
    ensures r.None? <==> forall t :: Key(t) != key
  {
    if key == "vertical_jump" then Some(VerticalJump)
    else if key == "situps" then Some(Situps)
    else if key == "sprint" then Some(Sprint)
    else if key == "pushups" then Some(Pushups)
    else if key == "flexibility" then Some(Flexibility)
    else
      assert Key(VerticalJump) != key && Key(Situps) != key && Key(Sprint) != key;
      None
  }

  /** Every key the table holds is found again by its own name. */
  lemma ParseKey(t: TestType)
    ensures ParseTestType(Key(t)) == Some(t)
  {
  }

  function Max(a: real, b: real): real {
    if a >= b then a else b
  }

  function Min(a: real, b: real): real {
    if a <= b then a else b
  }

  /** `Math.round`: halves round towards positive infinity. */
  function Round(x: real): (r: int)
    ensures r as real - 0.5 <= x < r as real + 0.5
  {
    (x + 0.5).Floor
  }

  lemma RoundMonotone(x: real, y: real)
    requires x <= y
    ensures Round(x) <= Round(y)
  {
  }

  /** Rounding a whole number gives it back. */
  lemma RoundInt(k: int)
    ensures Round(k as real) == k
  {
  }

  function IsMale(a: AthleteData): bool {
    a.gender == "Male"
  }

  // Vertical jump (src/utils/video-processor.js:22-50)

  /** Jump height in cm: base by gender, a bonus for athletes under 25, and jitter of ±5. */
  function JumpHeight(a: AthleteData, jitter: real): (h: real)
    ensures h >= 20.0
  {
    var baseHeight := if IsMale(a) then 45.0 else 35.0;
    var ageAdjustment := Max(0.0, (25 - a.age) as real * 0.5);
    var randomVariation := (jitter - 0.5) * 10.0;
    Max(20.0, baseHeight + ageAdjustment + randomVariation)
  }

  function JumpScore(h: real): (s: real)
    ensures 0.0 <= s <= 100.0
    ensures h >= 20.0 ==> s >= 100.0 / 3.0
    ensures h >= 60.0 ==> s == 100.0
  {
    Min(100.0, Max(0.0, h / 60.0 * 100.0))
  }

  // Sit-ups (src/utils/video-processor.js:52-79)

  /** Repetitions: rounded, never fewer than 10. */
  function SitupReps(a: AthleteData, jitter: real): (reps: int)
    ensures reps >= 10
  {
    var baseReps := if IsMale(a) then 35.0 else 30.0;
    var ageAdjustment := Max(0.0, (25 - a.age) as real * 0.3);
    var randomVariation := (jitter - 0.5) * 8.0;
    var rounded := Round(baseReps + ageAdjustment + randomVariation);
    if rounded >= 10 then rounded else 10
  }

  function SitupScore(reps: int): (s: real)
    requires reps >= 10
    ensures 20.0 <= s <= 100.0
    ensures s == (if reps >= 50 then 100 else 2 * reps) as real
  {
    Min(100.0, reps as real / 50.0 * 100.0)
  }

  // Sprint (src/utils/video-processor.js:81-108)

  /** Time in seconds: slower with age above 20, never under 5.5. */
  function SprintTime(a: AthleteData, jitter: real): (time: real)
    ensures time >= 5.5
  {
    var baseTime := if IsMale(a) then 7.0 else 8.0;
    var ageAdjustment := Max(0.0, (a.age - 20) as real * 0.05);
    var randomVariation := (jitter - 0.5) * 0.8;
    Max(5.5, baseTime + ageAdjustment + randomVariation)
  }

  function SprintScore(time: real): (s: real)
    ensures 0.0 <= s <= 100.0
    ensures time <= 6.0 ==> s == 100.0
    ensures time >= 10.0 ==> s == 0.0
  {
    Min(100.0, Max(0.0, (10.0 - time) / 4.0 * 100.0))
  }

  /** A faster time never scores lower. */
  lemma SprintScoreMonotone(t1: real, t2: real)
    requires t1 <= t2
    ensures SprintScore(t1) >= SprintScore(t2)
  {
  }

  // Push-ups (src/utils/video-processor.js:110-137)

  /** Repetitions: rounded, never fewer than 5. */
  function PushupReps(a: AthleteData, jitter: real): (reps: int)
    ensures reps >= 5
  {
    var baseReps := if IsMale(a) then 25.0 else 18.0;
    var ageAdjustment := Max(0.0, (25 - a.age) as real * 0.4);
    var randomVariation := (jitter - 0.5) * 6.0;
    var rounded := Round(baseReps + ageAdjustment + randomVariation);
    if rounded >= 5 then rounded else 5
  }

  function PushupScore(reps: int): (s: real)
    requires reps >= 5
    ensures 12.5 <= s <= 100.0
    ensures s == Min(100.0, 2.5 * reps as real)
  {
    Min(100.0, reps as real / 40.0 * 100.0)
  }

  /** The rounded push-up score in whole numbers: an odd count's half point rounds up. */
  lemma PushupOverall(reps: int)
    requires reps >= 5
    ensures Round(PushupScore(reps)) == if reps >= 40 then 100 else (5 * reps + 1) / 2
  {
    if reps < 40 {
      var k := (5 * reps + 1) / 2;
      assert 2 * k == 5 * reps || 2 * k == 5 * reps + 1;
      assert k as real - 0.5 <= PushupScore(reps) < k as real + 0.5;
    } else {
      RoundInt(100);
    }
  }

  // Flexibility (src/utils/video-processor.js:139-166)

  /** Reach in cm, never negative. */
  function Reach(a: AthleteData, jitter: real): (reach: real)
    ensures reach >= 0.0
  {
    var baseReach := if IsMale(a) then 12.0 else 16.0;
    var ageAdjustment := Max(0.0, (30 - a.age) as real * 0.2);
    var randomVariation := (jitter - 0.5) * 6.0;
    Max(0.0, baseReach + ageAdjustment + randomVariation)
  }

  function FlexibilityScore(reach: real): (s: real)
    requires reach >= 0.0
    ensures 0.0 <= s <= 100.0
    ensures reach >= 25.0 ==> s == 100.0
  {
    Min(100.0, reach / 25.0 * 100.0)
  }

  // Shared parts of every result (src/utils/video-processor.js:168-205)

  /** Score times 0.8, a bonus of 5 under age 22, jitter up to 10, rounded and capped at 99. */
  function CalculatePercentile(score: real, age: int, r: real): (p: int)
    requires IsDraw(r)
    ensures p <= 99
    ensures score >= 0.0 ==> p >= 0
    ensures p >= Round(score * 0.8 + (if age < 22 then 5.0 else 0.0)) || p == 99
  {
    var basePercentile := score * 0.8;
    var ageBonus := if age < 22 then 5.0 else 0.0;
    var rounded := Round(basePercentile + ageBonus + r * 10.0);
    if rounded <= 99 then rounded else 99
  }

  /** For any score a processor produces the cap of 99 is never reached. */
  lemma PercentileBelowCap(score: real, age: int, r: real)
    requires IsDraw(r) && score <= 100.0
    ensures CalculatePercentile(score, age, r) <= 95
  {
  }

  /** The tier is chosen from the unrounded score. */
  function TierOf(score: real): (t: Tier)
    ensures t == High <==> score >= 80.0
    ensures t == Medium <==> 60.0 <= score < 80.0
    ensures t == Low <==> score < 60.0
  {
    if score >= 80.0 then High else if score >= 60.0 then Medium else Low
  }

  /** The static advice table: three entries per test and tier. */
  function Advice(t: TestType, tier: Tier): (r: seq<string>)
    ensures |r| == 3
  {
    match t
    case VerticalJump =>
      (match tier
       case High => ["Excellent explosive power!", "Focus on maintaining technique", "Consider plyometric training"]
       case Medium => ["Good foundation", "Work on leg strength", "Practice jump technique"]
       case Low => ["Focus on basic strength training", "Improve flexibility", "Practice proper form"])
    case Situps =>
      (match tier
       case High => ["Outstanding core strength!", "Maintain consistency", "Add variety to core workouts"]
       case Medium => ["Solid core foundation", "Increase training frequency", "Focus on form quality"]
       case Low => ["Build basic core strength", "Start with modified exercises", "Improve endurance gradually"])
    case Sprint =>
      (match tier
       case High => ["Excellent speed!", "Work on race strategy", "Maintain technique at high speeds"]
       case Medium => ["Good speed foundation", "Improve acceleration", "Work on running form"]
       case Low => ["Focus on basic running technique", "Build leg strength", "Improve cardiovascular fitness"])
    case Pushups =>
      (match tier
       case High => ["Great upper body strength!", "Vary push-up types", "Maintain proper form"]
       case Medium => ["Good strength base", "Increase training volume", "Focus on full range of motion"]
       case Low => ["Build basic upper body strength", "Start with modified push-ups", "Improve gradually"])
    case Flexibility =>
      (match tier
       case High => ["Excellent flexibility!", "Maintain regular stretching", "Focus on dynamic mobility"]
       case Medium => ["Good flexibility range", "Increase stretching frequency", "Work on problem areas"]
       case Low => ["Improve basic flexibility", "Daily stretching routine", "Consider yoga or mobility work"])
  }

  function GetRecommendations(t: TestType, score: real): (r: seq<string>)
    ensures |r| == 3
    ensures score >= 80.0 ==> r == Advice(t, High)
    ensures 60.0 <= score < 80.0 ==> r == Advice(t, Medium)
    ensures score < 60.0 ==> r == Advice(t, Low)
  {
    Advice(t, TierOf(score))
  }

  function MetricName(t: TestType): string {
    match t
    case VerticalJump => "Jump Height"
    case Situps => "Repetitions"
    case Sprint => "Time"
    case Pushups => "Repetitions"
    case Flexibility => "Reach Distance"
  }

  function MetricUnit(t: TestType): string {
    match t
    case VerticalJump => "cm"
    case Situps => "reps"
    case Sprint => "seconds"
    case Pushups => "reps"
    case Flexibility => "cm"
  }

  /** Lowest `quality_score` of a test; each test's draw spans up to exactly 100. */
  function QualityBase(t: TestType): real {
    match t
    case VerticalJump => 85.0
    case Situps => 80.0
    case Sprint => 90.0
    case Pushups => 82.0
    case Flexibility => 88.0
  }

  function QualitySpan(t: TestType): real {
    match t
    case VerticalJump => 15.0
    case Situps => 20.0
    case Sprint => 10.0
    case Pushups => 18.0
    case Flexibility => 12.0
  }

  /** Lowest cheat-detection confidence of a test; each draw spans up to exactly 1. */
  function ConfidenceBase(t: TestType): real {
    match t
    case VerticalJump => 0.95
    case Situps => 0.92
    case Sprint => 0.98
    case Pushups => 0.90
    case Flexibility => 0.93
  }

  function ConfidenceSpan(t: TestType): real {
    match t
    case VerticalJump => 0.05
    case Situps => 0.08
    case Sprint => 0.02
    case Pushups => 0.10
    case Flexibility => 0.07
  }

  /** The record every processor returns around its unrounded score and primary metric. */
  function BuildResults(t: TestType, a: AthleteData, score: real, primary: real, d: Draws): (r: Results)
    requires ValidDraws(d) && 0.0 <= score <= 100.0
    ensures 0 <= r.overallScore <= 100 && r.overallScore == Round(score)
    ensures 0 <= r.percentile <= 95
    ensures QualityBase(t) <= r.qualityScore < 100.0
    ensures ConfidenceBase(t) <= r.cheatDetection.confidence < 1.0
    ensures r.cheatDetection.flags == []
    ensures r.recommendations == Some(Advice(t, TierOf(score)))
    ensures r.metrics == Metrics(primary, MetricName(t), MetricUnit(t))
  {
    PercentileBelowCap(score, a.age, d.percentile);
    RoundMonotone(0.0, score);
    RoundMonotone(score, 100.0);
    RoundInt(0);
    RoundInt(100);
    Results(
      Round(score),
      Metrics(primary, MetricName(t), MetricUnit(t)),
      CalculatePercentile(score, a.age, d.percentile),
      QualityBase(t) + d.quality * QualitySpan(t),
      CheatDetection(ConfidenceBase(t) + d.confidence * ConfidenceSpan(t), []),
      Some(GetRecommendations(t, score)))
  }

  /** The unrounded score the processor for `t` computes; advice and percentile use it. */
  function RawScore(t: TestType, a: AthleteData, jitter: real): (s: real)
    ensures 0.0 <= s <= 100.0
  {
    match t
    case VerticalJump => JumpScore(JumpHeight(a, jitter))
    case Situps => SitupScore(SitupReps(a, jitter))
    case Sprint => SprintScore(SprintTime(a, jitter))
    case Pushups => PushupScore(PushupReps(a, jitter))
    case Flexibility => FlexibilityScore(Reach(a, jitter))
  }

  function ProcessVerticalJump(a: AthleteData, d: Draws): (r: Results)
    requires ValidDraws(d)
    ensures 33 <= r.overallScore <= 100
    ensures r.metrics.primaryMetric >= 20.0
    ensures r.overallScore == Round(JumpScore(r.metrics.primaryMetric))
  {
    var h := JumpHeight(a, d.jitter);
    RoundMonotone(100.0 / 3.0, JumpScore(h));
    BuildResults(VerticalJump, a, RawScore(VerticalJump, a, d.jitter), h, d)
  }

  function ProcessSitups(a: AthleteData, d: Draws): (r: Results)
    requires ValidDraws(d)
    ensures 20 <= r.overallScore <= 100
    ensures r.overallScore == if r.metrics.primaryMetric >= 50.0 then 100 else 2 * r.metrics.primaryMetric.Floor
    ensures r.metrics.primaryMetric >= 10.0
  {
    var reps := SitupReps(a, d.jitter);
    RoundInt(if reps >= 50 then 100 else 2 * reps);
    BuildResults(Situps, a, RawScore(Situps, a, d.jitter), reps as real, d)
  }

  function ProcessSprint(a: AthleteData, d: Draws): (r: Results)
    requires ValidDraws(d)
    ensures 0 <= r.overallScore <= 100
    ensures r.metrics.primaryMetric >= 5.5
    ensures r.metrics.primaryMetric <= 6.0 ==> r.overallScore == 100
    ensures r.overallScore == Round(SprintScore(r.metrics.primaryMetric))
  {
    var time := SprintTime(a, d.jitter);
    RoundInt(100);
    BuildResults(Sprint, a, RawScore(Sprint, a, d.jitter), time, d)
  }

  /** Over any two vertical-jump results, the higher jump never has the lower overall score. */
  lemma HigherJumpNeverScoresLower(a1: AthleteData, d1: Draws, a2: AthleteData, d2: Draws)
    requires ValidDraws(d1) && ValidDraws(d2)
    requires ProcessVerticalJump(a1, d1).metrics.primaryMetric <= ProcessVerticalJump(a2, d2).metrics.primaryMetric
    ensures ProcessVerticalJump(a1, d1).overallScore <= ProcessVerticalJump(a2, d2).overallScore
  {
    var h1, h2 := ProcessVerticalJump(a1, d1).metrics.primaryMetric, ProcessVerticalJump(a2, d2).metrics.primaryMetric;
    RoundMonotone(JumpScore(h1), JumpScore(h2));
  }

  /** Over any two sprint results, the slower time never has the higher overall score. */
  lemma SlowerSprintNeverScoresHigher(a1: AthleteData, d1: Draws, a2: AthleteData, d2: Draws)
    requires ValidDraws(d1) && ValidDraws(d2)
    requires ProcessSprint(a1, d1).metrics.primaryMetric <= ProcessSprint(a2, d2).metrics.primaryMetric
    ensures ProcessSprint(a1, d1).overallScore >= ProcessSprint(a2, d2).overallScore
  {
    var t1, t2 := ProcessSprint(a1, d1).metrics.primaryMetric, ProcessSprint(a2, d2).metrics.primaryMetric;
    SprintScoreMonotone(t1, t2);
    RoundMonotone(SprintScore(t2), SprintScore(t1));
  }

  function ProcessPushups(a: AthleteData, d: Draws): (r: Results)
    requires ValidDraws(d)
    ensures 13 <= r.overallScore <= 100
    ensures r.metrics.primaryMetric >= 5.0
    ensures r.metrics.primaryMetric == r.metrics.primaryMetric.Floor as real
    ensures r.overallScore == Round(PushupScore(r.metrics.primaryMetric.Floor))
  {
    var reps := PushupReps(a, d.jitter);
    PushupOverall(reps);
    BuildResults(Pushups, a, RawScore(Pushups, a, d.jitter), reps as real, d)
  }

  function ProcessFlexibility(a: AthleteData, d: Draws): (r: Results)
    requires ValidDraws(d)
    ensures 0 <= r.overallScore <= 100
    ensures r.metrics.primaryMetric >= 0.0
    ensures r.overallScore == Round(FlexibilityScore(r.metrics.primaryMetric))
  {
    var reach := Reach(a, d.jitter);
    BuildResults(Flexibility, a, RawScore(Flexibility, a, d.jitter), reach, d)
  }

  /** The processor the dispatch table holds for `t`: its score is a percentage and its
      metric carries the test's name and unit. */
  function Process(t: TestType, a: AthleteData, d: Draws): (r: Results)
    requires ValidDraws(d)
    ensures 0 <= r.overallScore <= 100
    ensures r.metrics.metricName == MetricName(t) && r.metrics.unit == MetricUnit(t)
  {
    match t
    case VerticalJump => ProcessVerticalJump(a, d)
    case Situps => ProcessSitups(a, d)
    case Sprint => ProcessSprint(a, d)
    case Pushups => ProcessPushups(a, d)
    case Flexibility => ProcessFlexibility(a, d)
  }

  /** `processVideo`: dispatch on the test type, or throw for an unknown one. */
  function ProcessVideo(testType: string, a: AthleteData, d: Draws): (r: Result<Results, ScoringError>)
    requires ValidDraws(d)
    ensures r.Failure? <==> ParseTestType(testType).None?
    ensures r.Failure? ==> r.error == UnknownTestType(testType)
    ensures r.Success? ==> r.value == Process(ParseTestType(testType).value, a, d)
  {
    match ParseTestType(testType)
    case None => Failure(UnknownTestType(testType))
    case Some(t) => Success(Process(t, a, d))
  }

  /** Bounds that hold for every accepted test type and every draw. */
  lemma ProcessVideoBounds(testType: string, a: AthleteData, d: Draws)
    requires ValidDraws(d) && ProcessVideo(testType, a, d).Success?
    ensures var r := ProcessVideo(testType, a, d).value;
      && var t := ParseTestType(testType).value;
      && 0 <= r.overallScore <= 100
      && 0 <= r.percentile <= 99
      && 80.0 <= QualityBase(t) <= r.qualityScore < 100.0
      && 0.9 <= ConfidenceBase(t) <= r.cheatDetection.confidence < 1.0
      && r.cheatDetection.flags == []
      && r.recommendations.Some? && |r.recommendations.value| == 3
      && r.recommendations.value == Advice(t, TierOf(RawScore(t, a, d.jitter)))
  {
  }

  /** A 20-year-old man doing sit-ups with neutral jitter: 36.5 rounds up to 37 reps,
      which scores 74 and earns medium-tier advice. */
  lemma SitupsNeutralJitter()
    ensures var a := AthleteData("Test", 20, "Male", "Athletics");
      && SitupReps(a, 0.5) == 37
      && ProcessSitups(a, Draws(0.5, 0.0, 0.0, 0.0)).overallScore == 74
      && ProcessSitups(a, Draws(0.5, 0.0, 0.0, 0.0)).recommendations == Some(Advice(Situps, Medium))
  {
    var a := AthleteData("Test", 20, "Male", "Athletics");
    assert 35.0 + Max(0.0, 5.0 * 0.3) + 0.0 == 36.5;
    assert Round(36.5) == 37;
    RoundInt(74);
  }

  /** Advice follows the unrounded score: a jump of 47.76 cm scores 79.6, shown as 80,
      yet gets medium-tier advice. */
  lemma AdviceUsesUnroundedScore()
    ensures var r := ProcessVerticalJump(AthleteData("A", 25, "Male", "Athletics"), Draws(0.776, 0.0, 0.0, 0.0));
      && r.overallScore == 80
      && r.recommendations == Some(Advice(VerticalJump, Medium))
      && r.recommendations != Some(Advice(VerticalJump, High))
  {
    var a := AthleteData("A", 25, "Male", "Athletics");
    assert JumpHeight(a, 0.776) == 47.76;
    assert JumpScore(47.76) == 79.6;
    assert Round(79.6) == 80;
    assert Advice(VerticalJump, Medium)[0] != Advice(VerticalJump, High)[0];
  }
}
