/** The in-memory result store of src/utils/database.js: two append-only arrays of
    records with independent auto-increment counters, and linear-scan queries. */
module Store {
  import opened Wrappers
  import opened Seqs
  import Scoring

  datatype Athlete = Athlete(
    id: int, name: string, age: int, gender: string, sport: string, registrationDate: string)

  datatype Assessment = Assessment(
    id: int, athleteId: int, testType: string, timestamp: string, results: Scoring.Results)

  /** Reading `.sport` of the `undefined` that `getAthlete` gives for an unknown id
      throws a TypeError; the id is the one of the first assessment that triggers it. */
  datatype StoreError = MissingAthlete(athleteId: int)

  function Score(a: Assessment): int {
    a.results.overallScore
  }

  /** `athletes.find(a => a.id === id)`: the first athlete with that id. */
  function FindAthlete(athletes: seq<Athlete>, id: int): (r: Option<Athlete>)
    ensures r.None? <==> forall i :: 0 <= i < |athletes| ==> athletes[i].id != id
    ensures r.Some? ==> exists i :: (0 <= i < |athletes| && athletes[i] == r.value
      && r.value.id == id && forall j :: 0 <= j < i ==> athletes[j].id != id)
  {
    if athletes == [] then None
    else if athletes[0].id == id then Some(athletes[0])
    else
      var r := FindAthlete(athletes[1..], id);
      assert r.Some? ==> exists i :: (1 <= i < |athletes| && athletes[i] == r.value
        && forall j :: 0 <= j < i ==> athletes[j].id != id) by {
        if r.Some? {
          var i :| 0 <= i < |athletes[1..]| && athletes[1..][i] == r.value
            && forall j :: 0 <= j < i ==> athletes[1..][j].id != id;
          assert athletes[i + 1] == r.value;
          assert forall j :: 0 <= j < i + 1 ==> athletes[j].id != id by {
            forall j | 0 <= j < i + 1 ensures athletes[j].id != id {
              if j > 0 { assert athletes[j] == athletes[1..][j - 1]; }
            }
          }
        }
      }
      r
  }

  /** A store whose ids are unique finds each of its athletes by id. */
  lemma FindStoredAthlete(athletes: seq<Athlete>, i: int)
    requires 0 <= i < |athletes|
    requires forall j, k :: 0 <= j < k < |athletes| ==> athletes[j].id < athletes[k].id
    ensures FindAthlete(athletes, athletes[i].id) == Some(athletes[i])
  {
    var r := FindAthlete(athletes, athletes[i].id);
    var w :| 0 <= w < |athletes| && athletes[w] == r.value && r.value.id == athletes[i].id
      && forall j :: 0 <= j < w ==> athletes[j].id != athletes[i].id;
    assert w == i;
  }

  function IsOfAthlete(id: int): Assessment -> bool {
    (a: Assessment) => a.athleteId == id
  }

  /** `assessments.filter(a => a.athlete_id === id)`. */
  function ByAthlete(s: seq<Assessment>, id: int): (r: seq<Assessment>)
    ensures forall x :: x in r <==> x in s && x.athleteId == id
  {
    Filter(s, IsOfAthlete(id))
  }

  /** Each of the athlete's assessments is returned as often as it is stored, and no other. */
  lemma ByAthleteCounts(s: seq<Assessment>, id: int, x: Assessment)
    ensures multiset(ByAthlete(s, id))[x] == if x.athleteId == id then multiset(s)[x] else 0
  {
    FilterMultiset(s, IsOfAthlete(id), x);
  }

  /** JavaScript truthiness of a filter argument: `null` and `""` switch it off. */
  predicate Active(f: Option<string>) {
    f.Some? && f.value != ""
  }

  /** The athlete id of the first assessment whose athlete is not in the store. */
  function FirstOrphan(athletes: seq<Athlete>, s: seq<Assessment>): (r: Option<int>)
    ensures r.None? <==> forall i :: 0 <= i < |s| ==> FindAthlete(athletes, s[i].athleteId).Some?
    ensures r.Some? ==> FindAthlete(athletes, r.value).None? && exists i :: 0 <= i < |s| && s[i].athleteId == r.value
  {
    if s == [] then None
    else if FindAthlete(athletes, s[0].athleteId).None? then Some(s[0].athleteId)
    else
      var r := FirstOrphan(athletes, s[1..]);
      assert forall i :: 1 <= i < |s| ==> s[i] == s[1..][i - 1];
      r
  }

  predicate OfSport(athletes: seq<Athlete>, sport: string, a: Assessment) {
    var f := FindAthlete(athletes, a.athleteId);
    f.Some? && f.value.sport == sport
  }

  function IsOfSport(athletes: seq<Athlete>, sport: string): Assessment -> bool {
    a => OfSport(athletes, sport, a)
  }

  function IsOfTest(testType: string): Assessment -> bool {
    (a: Assessment) => a.testType == testType
  }

  /** Whether an assessment passes the active filters. */
  predicate Passes(athletes: seq<Athlete>, sport: Option<string>, testType: Option<string>, a: Assessment) {
    && (Active(sport) ==> OfSport(athletes, sport.value, a))
    && (Active(testType) ==> a.testType == testType.value)
  }

  function IsPassing(athletes: seq<Athlete>, sport: Option<string>, testType: Option<string>): Assessment -> bool {
    a => Passes(athletes, sport, testType, a)
  }

  /** The sport filter, which throws on an orphan, followed by the test-type filter. */
  function ApplyFilters(athletes: seq<Athlete>, s: seq<Assessment>, sport: Option<string>, testType: Option<string>)
    : (r: Result<seq<Assessment>, StoreError>)
  {
    var bySport :=
      if !Active(sport) then Success(s)
      else match FirstOrphan(athletes, s)
        case Some(id) => Failure(MissingAthlete(id))
        case None => Success(Filter(s, IsOfSport(athletes, sport.value)));
    match bySport
    case Failure(e) => Failure(e)
    case Success(xs) => Success(if Active(testType) then Filter(xs, IsOfTest(testType.value)) else xs)
  }

  /** The filter chain fails exactly when the sport filter meets an orphan; otherwise it
      keeps exactly the passing assessments, in stored order. */
  lemma ApplyFiltersSpec(athletes: seq<Athlete>, s: seq<Assessment>, sport: Option<string>, testType: Option<string>)
    ensures ApplyFilters(athletes, s, sport, testType).Failure?
      <==> Active(sport) && FirstOrphan(athletes, s).Some?
    ensures ApplyFilters(athletes, s, sport, testType).Success? ==>
      ApplyFilters(athletes, s, sport, testType).value == Filter(s, IsPassing(athletes, sport, testType))
  {
    var pass := IsPassing(athletes, sport, testType);
    if Active(sport) && FirstOrphan(athletes, s).None? {
      var xs := Filter(s, IsOfSport(athletes, sport.value));
      if Active(testType) {
        FilterFilter(s, IsOfSport(athletes, sport.value), IsOfTest(testType.value), pass);
      } else {
        FilterFilter(s, IsOfSport(athletes, sport.value), _ => true, pass);
        FilterAll(xs, _ => true);
      }
    } else if !Active(sport) {
      if Active(testType) {
        FilterFilter(s, _ => true, IsOfTest(testType.value), pass);
        FilterAll(s, _ => true);
      } else {
        FilterAll(s, pass);
      }
    }
  }

  /** `getTopPerformers`: filter, sort by descending score (stably), keep `limit`. The
      query fails only when the sport filter meets an assessment without an athlete. */
  function TopPerformers(athletes: seq<Athlete>, s: seq<Assessment>, limit: int, sport: Option<string>, testType: Option<string>)
    : (r: Result<seq<Assessment>, StoreError>)
    ensures r.Failure? <==> Active(sport) && FirstOrphan(athletes, s).Some?
  {
    ApplyFiltersSpec(athletes, s, sport, testType);
    match ApplyFilters(athletes, s, sport, testType)
    case Failure(e) => Failure(e)
    case Success(xs) => Success(Take(SortDesc(xs, Score), limit))
  }

  /** The passing assessments sorted as the query sorts them; the query returns a prefix. */
  lemma TopPerformersPrefix(athletes: seq<Athlete>, s: seq<Assessment>, limit: int, sport: Option<string>, testType: Option<string>)
    requires TopPerformers(athletes, s, limit, sport, testType).Success?
    ensures var r := TopPerformers(athletes, s, limit, sport, testType).value;
      var sorted := SortDesc(Filter(s, IsPassing(athletes, sport, testType)), Score);
      |r| == SliceEnd(|sorted|, limit) && r == sorted[..|r|]
  {
    ApplyFiltersSpec(athletes, s, sport, testType);
  }

  /** At most `limit` results, in non-increasing score order, each passing the filters. */
  lemma TopPerformersSorted(athletes: seq<Athlete>, s: seq<Assessment>, limit: int, sport: Option<string>, testType: Option<string>)
    requires TopPerformers(athletes, s, limit, sport, testType).Success?
    ensures var r := TopPerformers(athletes, s, limit, sport, testType).value;
      && |r| == SliceEnd(|Filter(s, IsPassing(athletes, sport, testType))|, limit)
      && (0 <= limit ==> |r| <= limit)
      && SortedDesc(r, Score)
      && forall x :: x in r ==> x in s && Passes(athletes, sport, testType, x)
  {
    TopPerformersPrefix(athletes, s, limit, sport, testType);
    var m := Filter(s, IsPassing(athletes, sport, testType));
    var r := TopPerformers(athletes, s, limit, sport, testType).value;
    SortedPrefixMembers(m, Score, |r|);
  }

  /** No passing assessment that is left out scores higher than one that is returned. */
  lemma TopPerformersAreTop(athletes: seq<Athlete>, s: seq<Assessment>, limit: int, sport: Option<string>, testType: Option<string>)
    requires TopPerformers(athletes, s, limit, sport, testType).Success?
    ensures var r := TopPerformers(athletes, s, limit, sport, testType).value;
      var m := Filter(s, IsPassing(athletes, sport, testType));
      && multiset(r) <= multiset(m)
      && forall x, y :: x in multiset(m) - multiset(r) && y in r ==> Score(x) <= Score(y)
  {
    TopPerformersPrefix(athletes, s, limit, sport, testType);
    var r := TopPerformers(athletes, s, limit, sport, testType).value;
    SortedPrefixIsTop(Filter(s, IsPassing(athletes, sport, testType)), Score, |r|);
  }

  /** Stability: the returned assessments of any one score are the first ones of that
      score among the passing assessments, in stored order. */
  lemma TopPerformersStable(athletes: seq<Athlete>, s: seq<Assessment>, limit: int, sport: Option<string>, testType: Option<string>, k: int)
    requires TopPerformers(athletes, s, limit, sport, testType).Success?
    ensures var r := TopPerformers(athletes, s, limit, sport, testType).value;
      WithKey(r, Score, k) <= WithKey(Filter(s, IsPassing(athletes, sport, testType)), Score, k)
  {
    TopPerformersPrefix(athletes, s, limit, sport, testType);
    var r := TopPerformers(athletes, s, limit, sport, testType).value;
    SortedPrefixStable(Filter(s, IsPassing(athletes, sport, testType)), Score, |r|, k);
  }

  /** An unfiltered query sorts the live array; a second one then finds it sorted, leaves
      it as it is and returns the same top performers. */
  lemma RepeatedQueryIsStable(athletes: seq<Athlete>, s: seq<Assessment>, limit: int)
    ensures SortDesc(SortDesc(s, Score), Score) == SortDesc(s, Score)
    ensures TopPerformers(athletes, SortDesc(s, Score), limit, None, None) == TopPerformers(athletes, s, limit, None, None)
  {
    SortDescSorted(SortDesc(s, Score), Score);
  }

  /** One assessment drawn for the sample data set: score, metric, percentile, quality and
      confidence draws. */
  datatype SampleDraw = SampleDraw(score: real, metric: real, percentile: real, quality: real, confidence: real)

  /** The three tests each sample athlete gets, in order. */
  function SampleTest(j: int): Scoring.TestType {
    if j == 0 then Scoring.VerticalJump else if j == 1 then Scoring.Situps else Scoring.Sprint
  }

  /** The sample athletes' form data. */
  function SampleAthleteData(i: int): Scoring.AthleteData {
    if i == 0 then Scoring.AthleteData("Rajesh Kumar", 22, "Male", "Athletics")
    else if i == 1 then Scoring.AthleteData("Priya Sharma", 19, "Female", "Swimming")
    else Scoring.AthleteData("Arjun Singh", 24, "Male", "Football")
  }

  /** `getRandomMetric`, before the string formatting: for a draw in [0, 1) the value
      lies in the test's range, and the repetition counts are whole numbers. */
  function RandomMetric(t: Scoring.TestType, r: real): (m: real)
    ensures Scoring.IsDraw(r) && t == Scoring.VerticalJump ==> 40.0 <= m < 60.0
    ensures Scoring.IsDraw(r) && t == Scoring.Situps ==> 25.0 <= m <= 45.0 && m == m.Floor as real
    ensures Scoring.IsDraw(r) && t == Scoring.Sprint ==> 6.5 <= m < 8.5
    ensures Scoring.IsDraw(r) && t == Scoring.Pushups ==> 20.0 <= m <= 45.0 && m == m.Floor as real
    ensures Scoring.IsDraw(r) && t == Scoring.Flexibility ==> 15.0 <= m < 25.0
  {
    match t
    case VerticalJump => 40.0 + r * 20.0
    case Situps => Scoring.Round(25.0 + r * 20.0) as real
    case Sprint => 6.5 + r * 2.0
    case Pushups => Scoring.Round(20.0 + r * 25.0) as real
    case Flexibility => 15.0 + r * 10.0
  }

  /** The raw sample score: 75 + r*20, 70 + r*25 or 65 + r*30. */
  function SampleScore(j: int, r: real): real {
    if j == 0 then 75.0 + r * 20.0 else if j == 1 then 70.0 + r * 25.0 else 65.0 + r * 30.0
  }

  /** The result record the sample generator builds; it has no recommendations, and its
      percentile is not capped. */
  function SampleResults(j: int, d: SampleDraw): (r: Scoring.Results)
    ensures r.cheatDetection.flags == [] && r.recommendations == None
    ensures Scoring.IsDraw(d.score) ==> 65 <= r.overallScore <= 95
    ensures Scoring.IsDraw(d.score) && Scoring.IsDraw(d.percentile) ==> 52 <= r.percentile <= 96
  {
    var t := SampleTest(j);
    var score := SampleScore(j, d.score);
    Scoring.Results(
      Scoring.Round(score),
      Scoring.Metrics(RandomMetric(t, d.metric), Scoring.MetricName(t), Scoring.MetricUnit(t)),
      Scoring.Round(score * 0.8 + d.percentile * 20.0),
      85.0 + d.quality * 15.0,
      Scoring.CheatDetection(0.95 + d.confidence * 0.05, []),
      None)
  }

  function SampleAthlete(firstId: int, i: int, now: string): Athlete {
    var d := SampleAthleteData(i);
    Athlete(firstId + i, d.name, d.age, d.gender, d.sport, now)
  }

  /** The first `n` athletes the sample generator adds. */
  function SampleAthletes(firstId: int, n: nat, now: string): (r: seq<Athlete>)
    ensures |r| == n
  {
    if n == 0 then [] else SampleAthletes(firstId, n - 1, now) + [SampleAthlete(firstId, n - 1, now)]
  }

  /** The `k`-th sample assessment: athlete `k / 3`, test `k % 3`. */
  function SampleAssessment(firstAthleteId: int, firstId: int, k: nat, d: SampleDraw, now: string): Assessment {
    Assessment(firstId + k, firstAthleteId + k / 3, Scoring.Key(SampleTest(k % 3)), now, SampleResults(k % 3, d))
  }

  /** The first `n` assessments the sample generator adds. */
  function SampleAssessments(firstAthleteId: int, firstId: int, n: nat, draws: seq<SampleDraw>, now: string): (r: seq<Assessment>)
    requires n <= |draws|
    ensures |r| == n
  {
    if n == 0 then []
    else
      SampleAssessments(firstAthleteId, firstId, n - 1, draws, now)
        + [SampleAssessment(firstAthleteId, firstId, n - 1, draws[n - 1], now)]
  }

  /** Appending the next sample athlete extends the sample prefix by one. */
  lemma SampleAthletesStep(before: seq<Athlete>, firstId: int, i: nat, now: string)
    ensures var d := SampleAthleteData(i);
      (before + SampleAthletes(firstId, i, now)) + [Athlete(firstId + i, d.name, d.age, d.gender, d.sport, now)]
        == before + SampleAthletes(firstId, i + 1, now)
  {
  }

  /** Appending the next sample assessment extends the sample prefix by one. */
  lemma SampleAssessmentsStep(before: seq<Assessment>, s: seq<Assessment>, x: Assessment, firstAthleteId: int,
                              firstId: int, k: nat, draws: seq<SampleDraw>, now: string)
    requires k < |draws| && s == before + SampleAssessments(firstAthleteId, firstId, k, draws, now)
    requires x == SampleAssessment(firstAthleteId, firstId, k, draws[k], now)
    ensures s + [x] == before + SampleAssessments(firstAthleteId, firstId, k + 1, draws, now)
  {
  }

  lemma {:induction false} SampleAthletesAt(firstId: int, n: nat, now: string, i: int)
    requires 0 <= i < n
    ensures SampleAthletes(firstId, n, now)[i] == SampleAthlete(firstId, i, now)
  {
    if i < n - 1 {
      SampleAthletesAt(firstId, n - 1, now, i);
    }
  }

  lemma {:induction false} SampleAssessmentsAt(firstAthleteId: int, firstId: int, n: nat, draws: seq<SampleDraw>, now: string, k: int)
    requires 0 <= k < n <= |draws|
    ensures SampleAssessments(firstAthleteId, firstId, n, draws, now)[k]
      == SampleAssessment(firstAthleteId, firstId, k, draws[k], now)
  {
    if k < n - 1 {
      SampleAssessmentsAt(firstAthleteId, firstId, n - 1, draws, now, k);
    }
  }

  /** On a fresh store the sample data has athlete ids 1..3 and assessment ids 1..9;
      each athlete gets a vertical jump, sit-ups and a sprint, in that order. */
  lemma SampleDataOnFreshStore(draws: seq<SampleDraw>, now: string)
    requires |draws| == 9
    ensures forall i :: 0 <= i < 3 ==> SampleAthletes(1, 3, now)[i].id == i + 1
    ensures forall k :: 0 <= k < 9 ==>
      var x := SampleAssessments(1, 1, 9, draws, now)[k];
      x.id == k + 1 && x.athleteId == k / 3 + 1
      && x.testType == ["vertical_jump", "situps", "sprint"][k % 3]
  {
    forall i | 0 <= i < 3 ensures SampleAthletes(1, 3, now)[i].id == i + 1 {
      SampleAthletesAt(1, 3, now, i);
    }
    forall k | 0 <= k < 9 ensures
      var x := SampleAssessments(1, 1, 9, draws, now)[k];
      x.id == k + 1 && x.athleteId == k / 3 + 1 && x.testType == ["vertical_jump", "situps", "sprint"][k % 3]
    {
      SampleAssessmentsAt(1, 1, 9, draws, now, k);
    }
  }

  /** Assessments whose ids differ pairwise are distinct values. */
  lemma {:induction false} UniqueIdsDistinct(s: seq<Assessment>)
    requires forall i, j :: 0 <= i < j < |s| ==> s[i].id != s[j].id
    ensures Distinct(s)
  {
    if s != [] {
      var p, x := s[..|s| - 1], s[|s| - 1];
      assert s == p + [x];
      UniqueIdsDistinct(p);
      assert x !in p by {
        forall k | 0 <= k < |p| ensures p[k] != x {
          assert p[k].id == s[k].id != s[|s| - 1].id;
        }
      }
      DistinctSnoc(p, x);
    }
  }

  /** Reordering the assessments keeps their ids unique and below the counter. */
  lemma PermutationKeepsIds(s: seq<Assessment>, t: seq<Assessment>, next: int)
    requires multiset(t) == multiset(s)
    requires forall i :: 0 <= i < |s| ==> 1 <= s[i].id < next
    requires forall i, j :: 0 <= i < j < |s| ==> s[i].id != s[j].id
    ensures forall i :: 0 <= i < |t| ==> 1 <= t[i].id < next
    ensures forall i, j :: 0 <= i < j < |t| ==> t[i].id != t[j].id
  {
    UniqueIdsDistinct(s);
    assert Distinct(t) by {
      forall x ensures multiset(t)[x] <= 1 {
        assert multiset(t)[x] == multiset(s)[x];
      }
    }
    forall i | 0 <= i < |t| ensures exists k :: 0 <= k < |s| && s[k] == t[i] {
      assert t[i] in multiset(s);
    }
    forall i, j | 0 <= i < j < |t| ensures t[i].id != t[j].id {
      DistinctAt(t, i, j);
      var a :| 0 <= a < |s| && s[a] == t[i];
      var b :| 0 <= b < |s| && s[b] == t[j];
      if a < b {
        assert s[a].id != s[b].id;
      } else {
        assert a != b;
        assert s[b].id != s[a].id;
      }
    }
  }

  class DatabaseManager {
    var athletes: seq<Athlete>
    var assessments: seq<Assessment>
    var nextAthleteId: int
    var nextAssessmentId: int

    /** Ids come from the counters: athlete ids rise in stored order, assessment ids are
        unique (their order can change, see GetTopPerformers), and all lie below the
        counter that issued them. */
    ghost predicate Valid()
      reads this
    {
      && 1 <= nextAthleteId && 1 <= nextAssessmentId
      && (forall i :: 0 <= i < |athletes| ==> 1 <= athletes[i].id < nextAthleteId)
      && (forall i, j :: 0 <= i < j < |athletes| ==> athletes[i].id < athletes[j].id)
      && (forall i :: 0 <= i < |assessments| ==> 1 <= assessments[i].id < nextAssessmentId)
      && (forall i, j :: 0 <= i < j < |assessments| ==> assessments[i].id != assessments[j].id)
    }

    constructor ()
      ensures Valid()
      ensures athletes == [] && assessments == []
      ensures nextAthleteId == 1 && nextAssessmentId == 1
    {
      athletes := [];
      assessments := [];
      nextAthleteId := 1;
      nextAssessmentId := 1;
    }

    method AddAthlete(data: Scoring.AthleteData, now: string) returns (id: int)
      requires Valid()
      modifies this
      ensures Valid()
      ensures id == old(nextAthleteId) && nextAthleteId == id + 1
      ensures athletes == old(athletes) + [Athlete(id, data.name, data.age, data.gender, data.sport, now)]
      ensures forall i :: 0 <= i < |old(athletes)| ==> old(athletes)[i].id < id
      ensures assessments == old(assessments) && nextAssessmentId == old(nextAssessmentId)
    {
      id := nextAthleteId;
      nextAthleteId := nextAthleteId + 1;
      athletes := athletes + [Athlete(id, data.name, data.age, data.gender, data.sport, now)];
    }

    /** The athlete id is stored as given: nothing checks that such an athlete exists. */
    method AddAssessment(athleteId: int, testType: string, results: Scoring.Results, now: string) returns (id: int)
      requires Valid()
      modifies this
      ensures Valid()
      ensures id == old(nextAssessmentId) && nextAssessmentId == id + 1
      ensures assessments == old(assessments) + [Assessment(id, athleteId, testType, now, results)]
      ensures forall x :: x in old(assessments) ==> x.id < id
      ensures athletes == old(athletes) && nextAthleteId == old(nextAthleteId)
    {
      id := nextAssessmentId;
      var x := Assessment(id, athleteId, testType, now, results);
      assert x !in assessments;
      nextAssessmentId := nextAssessmentId + 1;
      assessments := assessments + [x];
    }

    /** All athletes, in insertion order. */
    method GetAthletes() returns (r: seq<Athlete>)
      ensures r == athletes
    {
      r := athletes;
    }

    /** The first athlete whose id matches, found by a linear scan. */
    method GetAthlete(id: int) returns (r: Option<Athlete>)
      ensures r == FindAthlete(athletes, id)
    {
      var i := 0;
      while i < |athletes|
        invariant 0 <= i <= |athletes|
        invariant FindAthlete(athletes[i..], id) == FindAthlete(athletes, id)
      {
        assert athletes[i..][1..] == athletes[i + 1..];
        if athletes[i].id == id {
          return Some(athletes[i]);
        }
        i := i + 1;
      }
      return None;
    }

    /** All assessments, in stored order. */
    method GetAssessments() returns (r: seq<Assessment>)
      ensures r == assessments
    {
      r := assessments;
    }

    /** The assessments of one athlete, in stored order, by a linear scan. */
    method GetAssessmentsByAthlete(athleteId: int) returns (r: seq<Assessment>)
      ensures r == ByAthlete(assessments, athleteId)
    {
      r := [];
      var i := 0;
      while i < |assessments|
        invariant 0 <= i <= |assessments|
        invariant r == Filter(assessments[..i], IsOfAthlete(athleteId))
      {
        assert assessments[..i + 1] == assessments[..i] + [assessments[i]];
        FilterSnoc(assessments[..i], assessments[i], IsOfAthlete(athleteId));
        if assessments[i].athleteId == athleteId {
          r := r + [assessments[i]];
        }
        i := i + 1;
      }
      assert assessments[..i] == assessments;
    }

    /** `getTopPerformers`. Without an active filter the sort runs on the stored array
        itself, so the store is left in descending score order; an active filter copies. */
    method GetTopPerformers(limit: int := 10, sport: Option<string> := None, testType: Option<string> := None)
      returns (r: Result<seq<Assessment>, StoreError>)
      requires Valid()
      modifies this
      ensures Valid()
      ensures r == TopPerformers(old(athletes), old(assessments), limit, sport, testType)
      ensures assessments == if Active(sport) || Active(testType) then old(assessments)
                             else SortDesc(old(assessments), Score)
      ensures athletes == old(athletes)
      ensures nextAthleteId == old(nextAthleteId) && nextAssessmentId == old(nextAssessmentId)
    {
      var filtered := ApplyFilters(athletes, assessments, sport, testType);
      if filtered.Failure? {
        return Failure(filtered.error);
      }
      var sorted := SortDesc(filtered.value, Score);
      if !Active(sport) && !Active(testType) {
        Reorder(sorted);
      }
      r := Success(Take(sorted, limit));
    }

    /** With no filter the sort runs on the stored array itself, reordering it in place. */
    method Reorder(sorted: seq<Assessment>)
      requires Valid() && multiset(sorted) == multiset(assessments)
      modifies this
      ensures Valid()
      ensures assessments == sorted
      ensures athletes == old(athletes)
      ensures nextAthleteId == old(nextAthleteId) && nextAssessmentId == old(nextAssessmentId)
    {
      PermutationKeepsIds(assessments, sorted, nextAssessmentId);
      assessments := sorted;
    }

    /** `initializeSampleData`: three athletes, each followed by three assessments. */
    method InitializeSampleData(draws: seq<SampleDraw>, now: string)
      requires Valid() && |draws| == 9
      modifies this
      ensures Valid()
      ensures athletes == old(athletes) + SampleAthletes(old(nextAthleteId), 3, now)
      ensures assessments == old(assessments)
        + SampleAssessments(old(nextAthleteId), old(nextAssessmentId), 9, draws, now)
      ensures nextAthleteId == old(nextAthleteId) + 3 && nextAssessmentId == old(nextAssessmentId) + 9
    {
      ghost var firstAthlete, firstAssessment := nextAthleteId, nextAssessmentId;
      for i := 0 to 3
        invariant Valid()
        invariant nextAthleteId == firstAthlete + i && nextAssessmentId == firstAssessment + 3 * i
        invariant athletes == old(athletes) + SampleAthletes(firstAthlete, i, now)
        invariant assessments == old(assessments) + SampleAssessments(firstAthlete, firstAssessment, 3 * i, draws, now)
      {
        AddSampleAthlete(i, draws, now, old(athletes), old(assessments), firstAthlete, firstAssessment);
      }
    }

    /** One step of the outer loop of `initializeSampleData`: an athlete and its three tests. */
    method AddSampleAthlete(i: nat, draws: seq<SampleDraw>, now: string, ghost athletesBefore: seq<Athlete>,
                            ghost assessmentsBefore: seq<Assessment>, ghost firstAthlete: int, ghost firstAssessment: int)
      requires Valid() && |draws| == 9 && i < 3
      requires nextAthleteId == firstAthlete + i && nextAssessmentId == firstAssessment + 3 * i
      requires athletes == athletesBefore + SampleAthletes(firstAthlete, i, now)
      requires assessments == assessmentsBefore + SampleAssessments(firstAthlete, firstAssessment, 3 * i, draws, now)
      modifies this
      ensures Valid()
      ensures nextAthleteId == firstAthlete + i + 1 && nextAssessmentId == firstAssessment + 3 * (i + 1)
      ensures athletes == athletesBefore + SampleAthletes(firstAthlete, i + 1, now)
      ensures assessments == assessmentsBefore + SampleAssessments(firstAthlete, firstAssessment, 3 * (i + 1), draws, now)
    {
      SampleAthletesStep(athletesBefore, firstAthlete, i, now);
      var athleteId := AddAthlete(SampleAthleteData(i), now);
      AddSampleTests(athleteId, i, draws, now, assessmentsBefore, firstAthlete, firstAssessment);
    }

    /** The inner loop of `initializeSampleData`: the three tests of athlete `i`. */
    method AddSampleTests(athleteId: int, i: int, draws: seq<SampleDraw>, now: string,
                          ghost assessmentsBefore: seq<Assessment>, ghost firstAthlete: int, ghost firstAssessment: int)
      requires Valid() && |draws| == 9 && 0 <= i < 3
      requires athleteId == firstAthlete + i && nextAssessmentId == firstAssessment + 3 * i
      requires assessments == assessmentsBefore + SampleAssessments(firstAthlete, firstAssessment, 3 * i, draws, now)
      modifies this
      ensures Valid()
      ensures athletes == old(athletes) && nextAthleteId == old(nextAthleteId)
      ensures nextAssessmentId == firstAssessment + 3 * (i + 1)
      ensures assessments == assessmentsBefore + SampleAssessments(firstAthlete, firstAssessment, 3 * (i + 1), draws, now)
    {
      var k := 3 * i;
      for j := 0 to 3
        invariant Valid()
        invariant athletes == old(athletes) && nextAthleteId == old(nextAthleteId)
        invariant k == 3 * i + j && nextAssessmentId == firstAssessment + k
        invariant assessments == assessmentsBefore + SampleAssessments(firstAthlete, firstAssessment, k, draws, now)
      {
        AddSampleAssessment(athleteId, k, draws, now, assessmentsBefore, firstAthlete, firstAssessment);
        k := k + 1;
      }
    }

    /** One step of the inner loop of `initializeSampleData`: sample assessment `k`. */
    method AddSampleAssessment(athleteId: int, k: nat, draws: seq<SampleDraw>, now: string,
                               ghost prefix: seq<Assessment>, ghost firstAthlete: int, ghost firstAssessment: int)
      requires Valid() && k < |draws|
      requires athleteId == firstAthlete + k / 3 && nextAssessmentId == firstAssessment + k
      requires assessments == prefix + SampleAssessments(firstAthlete, firstAssessment, k, draws, now)
      modifies this
      ensures Valid()
      ensures athletes == old(athletes) && nextAthleteId == old(nextAthleteId)
      ensures nextAssessmentId == firstAssessment + k + 1
      ensures assessments == prefix + SampleAssessments(firstAthlete, firstAssessment, k + 1, draws, now)
    {
      ghost var x := SampleAssessment(firstAthlete, firstAssessment, k, draws[k], now);
      SampleAssessmentsStep(prefix, assessments, x, firstAthlete, firstAssessment, k, draws, now);
      var j := k % 3;
      var _ := AddAssessment(athleteId, Scoring.Key(SampleTest(j)), SampleResults(j, draws[k]), now);
      assert assessments == old(assessments) + [x];
    }
  }
}
