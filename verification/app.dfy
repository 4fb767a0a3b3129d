/** The data logic of the SAIApp controller in src/main.js: storing an analysed video,
    the dashboard figures, the chart inputs and the leaderboard. */
module App {
  import opened Wrappers
  import opened Seqs
  import Scoring
  import Store
  import Charts

  // ---------------------------------------------------------------------------------
  // Leaderboard: best assessment per athlete

  /** One step of the best-per-athlete loop: an athlete's entry is replaced only by a
      strictly higher score. */
  function Keep(best: map<int, Store.Assessment>, a: Store.Assessment): map<int, Store.Assessment> {
    if a.athleteId !in best || Store.Score(a) > Store.Score(best[a.athleteId]) then best[a.athleteId := a]
    else best
  }

  /** The `athleteScores` object after the loop has visited `s`. */
  function Best(s: seq<Store.Assessment>): map<int, Store.Assessment> {
    if s == [] then map[] else Keep(Best(s[..|s| - 1]), s[|s| - 1])
  }

  /** The order in which the loop creates the properties of `athleteScores`. */
  function KeyOrder(s: seq<Store.Assessment>): seq<int> {
    if s == [] then []
    else
      var p := s[..|s| - 1];
      if s[|s| - 1].athleteId in Best(p) then KeyOrder(p) else KeyOrder(p) + [s[|s| - 1].athleteId]
  }

  /** Position `i` holds a maximal score of athlete `id`, and no earlier position holds an
      equally high one. */
  predicate IsBestAt(s: seq<Store.Assessment>, id: int, i: int) {
    && 0 <= i < |s| && s[i].athleteId == id
    && (forall j :: 0 <= j < |s| && s[j].athleteId == id ==> Store.Score(s[j]) <= Store.Score(s[i]))
    && (forall j :: 0 <= j < i && s[j].athleteId == id ==> Store.Score(s[j]) < Store.Score(s[i]))
  }

  /** Each athlete present maps to the first of their maximal-score assessments. */
  lemma {:induction false} BestAt(s: seq<Store.Assessment>, id: int)
    ensures id in Best(s) <==> exists i :: 0 <= i < |s| && s[i].athleteId == id
    ensures id in Best(s) ==> exists i :: IsBestAt(s, id, i) && Best(s)[id] == s[i]
  {
    if s != [] {
      var p, a := s[..|s| - 1], s[|s| - 1];
      assert forall j :: 0 <= j < |p| ==> p[j] == s[j];
      BestAt(p, id);
      if id in Best(s) {
        if a.athleteId == id && (id !in Best(p) || Store.Score(a) > Store.Score(Best(p)[id])) {
          assert IsBestAt(s, id, |p|);
        } else {
          var i :| IsBestAt(p, id, i) && Best(p)[id] == p[i];
          assert IsBestAt(s, id, i);
        }
      }
    }
  }

  /** The keys are created once each, for exactly the athletes present. */
  lemma {:induction false} KeyOrderSpec(s: seq<Store.Assessment>)
    ensures Distinct(KeyOrder(s))
    ensures forall k :: k in KeyOrder(s) <==> k in Best(s)
  {
    if s != [] {
      var p := s[..|s| - 1];
      KeyOrderSpec(p);
      if s[|s| - 1].athleteId !in Best(p) {
        DistinctSnoc(KeyOrder(p), s[|s| - 1].athleteId);
      }
    }
  }

  /** On a score-sorted input the entry kept is the athlete's first assessment. */
  lemma BestOfSorted(s: seq<Store.Assessment>, id: int, i: int)
    requires SortedDesc(s, Store.Score) && IsBestAt(s, id, i)
    ensures forall j :: 0 <= j < i ==> s[j].athleteId != id
  {
  }

  // ---------------------------------------------------------------------------------
  // Leaderboard: `Object.values` order

  /** A key `String(k)` that is an array index; ECMAScript lists these first, ascending. */
  predicate IsIndexKey(k: int) {
    0 <= k < 0xFFFF_FFFF
  }

  function IndexKeys(): int -> bool {
    k => IsIndexKey(k)
  }

  function OtherKeys(): int -> bool {
    k => !IsIndexKey(k)
  }

  function Negated(): int -> int {
    k => -k
  }

  /** The own-property order of an object whose keys were created in order `keys`:
      array-index keys in ascending numeric order, then the others in creation order. */
  function PropertyOrder(keys: seq<int>): seq<int> {
    SortDesc(Filter(keys, IndexKeys()), Negated()) + Filter(keys, OtherKeys())
  }

  /** Reordering the keys neither loses nor repeats one. */
  lemma PropertyOrderSpec(keys: seq<int>)
    ensures multiset(PropertyOrder(keys)) == multiset(keys)
    ensures Distinct(keys) ==> Distinct(PropertyOrder(keys))
    ensures forall k :: k in PropertyOrder(keys) <==> k in keys
  {
    var ix := SortDesc(Filter(keys, IndexKeys()), Negated());
    forall x
      ensures multiset(PropertyOrder(keys))[x] == multiset(keys)[x]
    {
      FilterMultiset(keys, IndexKeys(), x);
      FilterMultiset(keys, OtherKeys(), x);
    }
    assert multiset(PropertyOrder(keys)) == multiset(keys);
    forall k ensures k in PropertyOrder(keys) <==> k in keys {
      assert k in PropertyOrder(keys) <==> k in multiset(PropertyOrder(keys));
    }
  }

  /** With only array-index keys, the order is the keys sorted ascending. */
  lemma AllIndexKeys(keys: seq<int>)
    requires forall i :: 0 <= i < |keys| ==> IsIndexKey(keys[i])
    ensures PropertyOrder(keys) == SortDesc(keys, Negated())
  {
    assert forall k :: k in keys ==> IsIndexKey(k);
    FilterAll(keys, IndexKeys());
    FilterNone(keys, OtherKeys());
  }

  /** Distinct keys sorted by descending negation are strictly ascending. */
  lemma AscendingWhenDistinct(po: seq<int>)
    requires SortedDesc(po, Negated()) && Distinct(po)
    ensures forall i, j :: 0 <= i < j < |po| ==> po[i] < po[j]
  {
    forall i, j | 0 <= i < j < |po| ensures po[i] < po[j] {
      DistinctAt(po, i, j);
      assert Negated()(po[i]) >= Negated()(po[j]);
    }
  }

  /** With only array-index keys the order is strictly ascending. */
  lemma PropertyOrderAscending(keys: seq<int>)
    requires Distinct(keys) && forall i :: 0 <= i < |keys| ==> IsIndexKey(keys[i])
    ensures forall i, j :: 0 <= i < j < |PropertyOrder(keys)| ==> PropertyOrder(keys)[i] < PropertyOrder(keys)[j]
  {
    AllIndexKeys(keys);
    PropertyOrderSpec(keys);
    AscendingWhenDistinct(PropertyOrder(keys));
  }

  /** `Object.values` of the best-per-athlete object. */
  function ObjectValues(best: map<int, Store.Assessment>, order: seq<int>): (r: seq<Store.Assessment>)
    requires forall j :: 0 <= j < |order| ==> order[j] in best
    ensures |r| == |order| && forall j :: 0 <= j < |order| ==> r[j] == best[order[j]]
  {
    seq(|order|, j requires 0 <= j < |order| => best[order[j]])
  }

  /** `Object.values(athleteScores).slice(0, 20)` on the sorted, filtered assessments. */
  function TopAthletes(sorted: seq<Store.Assessment>): seq<Store.Assessment> {
    KeyOrderSpec(sorted);
    PropertyOrderSpec(KeyOrder(sorted));
    var order := PropertyOrder(KeyOrder(sorted));
    assert forall j :: 0 <= j < |order| ==> order[j] in order;
    Take(ObjectValues(Best(sorted), PropertyOrder(KeyOrder(sorted))), 20)
  }

  // ---------------------------------------------------------------------------------
  // Leaderboard: rows

  /** A rendered row: its rank, the badge class, whether it is styled as top-3, and the
      assessment and athlete whose fields it shows. */
  datatype Row = Row(rank: nat, rankClass: string, topThree: bool, assessment: Store.Assessment, athlete: Store.Athlete)

  /** The badge of a rank: only the first three ranks get one. */
  function RankClass(rank: int): (c: string)
    ensures c != "" <==> 1 <= rank <= 3
  {
    if rank == 1 then "gold" else if rank == 2 then "silver" else if rank == 3 then "bronze" else ""
  }

  /** The three badges differ from each other. */
  lemma RankClassesDistinct(r1: int, r2: int)
    requires 1 <= r1 <= 3 && 1 <= r2 <= 3 && r1 != r2
    ensures RankClass(r1) != RankClass(r2)
  {
  }

  /** The row template reads `athlete.name`, which throws for an assessment whose athlete
      is not in the store; the first such row stops the rendering. */
  function Render(athletes: seq<Store.Athlete>, top: seq<Store.Assessment>): Result<seq<Row>, Store.StoreError> {
    match Store.FirstOrphan(athletes, top)
    case Some(id) => Failure(Store.MissingAthlete(id))
    case None =>
      Success(seq(|top|, j requires 0 <= j < |top| =>
        Row(j + 1, RankClass(j + 1), j + 1 <= 3, top[j], Store.FindAthlete(athletes, top[j].athleteId).value)))
  }

  /** Without orphans, rendering gives one row per entry, ranked from 1. */
  lemma RenderRows(athletes: seq<Store.Athlete>, top: seq<Store.Assessment>)
    requires Store.FirstOrphan(athletes, top).None?
    ensures Render(athletes, top).Success?
    ensures var rows := Render(athletes, top).value;
      && |rows| == |top|
      && forall j :: 0 <= j < |rows| ==>
        (&& rows[j].assessment == top[j] && rows[j].rank == j + 1
         && rows[j].rankClass == RankClass(j + 1) && rows[j].topThree == (j < 3)
         && Some(rows[j].athlete) == Store.FindAthlete(athletes, top[j].athleteId))
  {
  }

  /** `loadLeaderboard`: filter by the selected sport and test (an empty selection is no
      filter), sort by descending score, keep each athlete's best, list the first 20. */
  function Leaderboard(athletes: seq<Store.Athlete>, assessments: seq<Store.Assessment>, sportFilter: string, testFilter: string)
    : Result<seq<Row>, Store.StoreError>
  {
    match Store.ApplyFilters(athletes, assessments, Some(sportFilter), Some(testFilter))
    case Failure(e) => Failure(e)
    case Success(xs) => Render(athletes, TopAthletes(SortDesc(xs, Store.Score)))
  }

  /** The assessments that pass the two selections. */
  function Passing(athletes: seq<Store.Athlete>, assessments: seq<Store.Assessment>, sportFilter: string, testFilter: string)
    : seq<Store.Assessment>
  {
    Filter(assessments, Store.IsPassing(athletes, Some(sportFilter), Some(testFilter)))
  }

  /** The athletes that some assessment of `xs` belongs to. */
  function AthletesOf(xs: seq<Store.Assessment>): set<int> {
    set x | x in xs :: x.athleteId
  }

  /** Entry `j` of the top list is the kept assessment of the `j`-th key in property order. */
  lemma TopAt(sorted: seq<Store.Assessment>, j: int)
    requires 0 <= j < |TopAthletes(sorted)|
    ensures var order := PropertyOrder(KeyOrder(sorted));
      && j < |order| && order[j] in Best(sorted)
      && TopAthletes(sorted)[j] == Best(sorted)[order[j]]
      && TopAthletes(sorted)[j].athleteId == order[j]
      && exists i :: IsBestAt(sorted, order[j], i) && sorted[i] == TopAthletes(sorted)[j]
  {
    var order := PropertyOrder(KeyOrder(sorted));
    KeyOrderSpec(sorted);
    PropertyOrderSpec(KeyOrder(sorted));
    assert order[j] in order;
    BestAt(sorted, order[j]);
  }

  /** One key per athlete present. */
  lemma KeyCount(s: seq<Store.Assessment>)
    ensures |KeyOrder(s)| == |Best(s)|
  {
    var keys := KeyOrder(s);
    KeyOrderSpec(s);
    DistinctCard(keys);
    var ks := set k | k in keys;
    forall k ensures k in ks <==> k in Best(s).Keys {
      assert k in ks <==> k in keys;
    }
    assert ks == Best(s).Keys;
  }

  /** The top list has one entry per athlete present, up to 20. */
  lemma TopLength(sorted: seq<Store.Assessment>)
    ensures |PropertyOrder(KeyOrder(sorted))| == |Best(sorted)|
    ensures |TopAthletes(sorted)| == SliceEnd(|Best(sorted)|, 20)
  {
    var keys := KeyOrder(sorted);
    KeyCount(sorted);
    PropertyOrderSpec(keys);
    assert |multiset(PropertyOrder(keys))| == |multiset(keys)|;
  }

  /** No athlete appears twice in the top list. */
  lemma TopDistinct(sorted: seq<Store.Assessment>, i: int, j: int)
    requires 0 <= i < j < |TopAthletes(sorted)|
    ensures TopAthletes(sorted)[i].athleteId != TopAthletes(sorted)[j].athleteId
  {
    KeyOrderSpec(sorted);
    PropertyOrderSpec(KeyOrder(sorted));
    TopAt(sorted, i);
    TopAt(sorted, j);
    DistinctAt(PropertyOrder(KeyOrder(sorted)), i, j);
  }

  /** With at most 20 athletes, every one of them is in the top list. */
  lemma TopComplete(sorted: seq<Store.Assessment>, id: int)
    requires |Best(sorted)| <= 20 && id in Best(sorted)
    ensures exists j :: 0 <= j < |TopAthletes(sorted)| && TopAthletes(sorted)[j].athleteId == id
  {
    TopLength(sorted);
    KeyOrderSpec(sorted);
    var order := PropertyOrder(KeyOrder(sorted));
    PropertyOrderSpec(KeyOrder(sorted));
    var j :| 0 <= j < |order| && order[j] == id;
    TopAt(sorted, j);
  }

  /** With array-index athlete ids only, the top list is in ascending athlete-id order. */
  lemma TopAscending(sorted: seq<Store.Assessment>, i: int, j: int)
    requires forall k :: 0 <= k < |sorted| ==> IsIndexKey(sorted[k].athleteId)
    requires 0 <= i < j < |TopAthletes(sorted)|
    ensures TopAthletes(sorted)[i].athleteId < TopAthletes(sorted)[j].athleteId
  {
    var keys := KeyOrder(sorted);
    KeyOrderSpec(sorted);
    forall k | 0 <= k < |keys| ensures IsIndexKey(keys[k]) {
      assert keys[k] in keys;
      BestAt(sorted, keys[k]);
    }
    PropertyOrderAscending(keys);
    TopAt(sorted, i);
    TopAt(sorted, j);
  }

  /** The filter stage of the leaderboard succeeds with the passing assessments, or fails
      exactly when the sport filter meets an orphan. */
  lemma FilterStage(athletes: seq<Store.Athlete>, assessments: seq<Store.Assessment>, sportFilter: string, testFilter: string)
    ensures Store.ApplyFilters(athletes, assessments, Some(sportFilter), Some(testFilter)).Failure?
      <==> sportFilter != "" && Store.FirstOrphan(athletes, assessments).Some?
    ensures Store.ApplyFilters(athletes, assessments, Some(sportFilter), Some(testFilter)).Success? ==>
      Store.ApplyFilters(athletes, assessments, Some(sportFilter), Some(testFilter)).value
        == Passing(athletes, assessments, sportFilter, testFilter)
  {
    Store.ApplyFiltersSpec(athletes, assessments, Some(sportFilter), Some(testFilter));
  }

  /** When the filters succeed, the rows are the rendered top list of the sorted passing
      assessments. */
  lemma LeaderboardUnfold(athletes: seq<Store.Athlete>, assessments: seq<Store.Assessment>, sportFilter: string, testFilter: string)
    requires Leaderboard(athletes, assessments, sportFilter, testFilter).Success?
    ensures var top := TopAthletes(SortDesc(Passing(athletes, assessments, sportFilter, testFilter), Store.Score));
      && Store.FirstOrphan(athletes, top).None?
      && Leaderboard(athletes, assessments, sportFilter, testFilter) == Render(athletes, top)
      && var rows := Leaderboard(athletes, assessments, sportFilter, testFilter).value;
      && |rows| == |top|
      && forall j :: 0 <= j < |rows| ==>
        (&& rows[j].assessment == top[j] && rows[j].rank == j + 1
         && rows[j].rankClass == RankClass(j + 1) && rows[j].topThree == (j < 3)
         && Some(rows[j].athlete) == Store.FindAthlete(athletes, top[j].athleteId))
  {
    FilterStage(athletes, assessments, sportFilter, testFilter);
    RenderRows(athletes, TopAthletes(SortDesc(Passing(athletes, assessments, sportFilter, testFilter), Store.Score)));
  }

  /** Sorting keeps the passing assessments, so the athletes present are those passing. */
  lemma SortedMembers(athletes: seq<Store.Athlete>, assessments: seq<Store.Assessment>, sportFilter: string, testFilter: string)
    ensures var passing := Passing(athletes, assessments, sportFilter, testFilter);
      forall x :: x in SortDesc(passing, Store.Score) <==> x in assessments && Store.Passes(athletes, Some(sportFilter), Some(testFilter), x)
  {
    var passing := Passing(athletes, assessments, sportFilter, testFilter);
    var sorted := SortDesc(passing, Store.Score);
    forall x ensures x in sorted <==> x in passing {
      assert x in sorted <==> x in multiset(sorted);
      assert x in passing <==> x in multiset(passing);
    }
  }

  /** The best-per-athlete object has a key for each athlete of the sequence and no other. */
  lemma BestDomain(s: seq<Store.Assessment>)
    ensures Best(s).Keys == AthletesOf(s)
  {
    forall id | id in Best(s) ensures id in AthletesOf(s) {
      BestAt(s, id);
      var i :| 0 <= i < |s| && s[i].athleteId == id;
      assert s[i] in s;
    }
    forall id | id in AthletesOf(s) ensures id in Best(s) {
      BestAt(s, id);
    }
  }

  /** The athletes in the best-per-athlete object are the athletes of the passing assessments. */
  lemma BestKeys(athletes: seq<Store.Athlete>, assessments: seq<Store.Assessment>, sportFilter: string, testFilter: string)
    ensures var passing := Passing(athletes, assessments, sportFilter, testFilter);
      Best(SortDesc(passing, Store.Score)).Keys == AthletesOf(passing)
  {
    var passing := Passing(athletes, assessments, sportFilter, testFilter);
    var sorted := SortDesc(passing, Store.Score);
    BestDomain(sorted);
    forall x ensures x in sorted <==> x in passing {
      assert x in sorted <==> x in multiset(sorted);
      assert x in passing <==> x in multiset(passing);
    }
  }

  /** Without orphans the leaderboard renders; under a sport selection an orphan anywhere
      in the store makes it fail on that assessment's athlete id. */
  lemma LeaderboardErrors(athletes: seq<Store.Athlete>, assessments: seq<Store.Assessment>, sportFilter: string, testFilter: string)
    ensures sportFilter != "" && Store.FirstOrphan(athletes, assessments).Some? ==>
      Leaderboard(athletes, assessments, sportFilter, testFilter)
        == Failure(Store.MissingAthlete(Store.FirstOrphan(athletes, assessments).value))
    ensures Store.FirstOrphan(athletes, assessments).None? ==> Leaderboard(athletes, assessments, sportFilter, testFilter).Success?
  {
    FilterStage(athletes, assessments, sportFilter, testFilter);
    if Store.FirstOrphan(athletes, assessments).None? {
      var sorted := SortDesc(Passing(athletes, assessments, sportFilter, testFilter), Store.Score);
      var top := TopAthletes(sorted);
      SortedMembers(athletes, assessments, sportFilter, testFilter);
      forall j | 0 <= j < |top| ensures Store.FindAthlete(athletes, top[j].athleteId).Some? {
        TopAt(sorted, j);
        var i :| IsBestAt(sorted, top[j].athleteId, i) && sorted[i] == top[j];
        assert sorted[i] in sorted;
        var k :| 0 <= k < |assessments| && assessments[k] == top[j];
      }
    }
  }

  /** Ranks count from 1, the first three get the medal classes and top-3 styling, and each
      row shows the athlete its assessment belongs to. */
  lemma LeaderboardRanks(athletes: seq<Store.Athlete>, assessments: seq<Store.Assessment>, sportFilter: string, testFilter: string)
    requires Leaderboard(athletes, assessments, sportFilter, testFilter).Success?
    ensures var rows := Leaderboard(athletes, assessments, sportFilter, testFilter).value;
      && |rows| <= 20
      && forall j :: 0 <= j < |rows| ==>
        && rows[j].rank == j + 1
        && rows[j].rankClass == (if j == 0 then "gold" else if j == 1 then "silver" else if j == 2 then "bronze" else "")
        && rows[j].topThree == (j < 3)
        && Some(rows[j].athlete) == Store.FindAthlete(athletes, rows[j].assessment.athleteId)
  {
    LeaderboardUnfold(athletes, assessments, sportFilter, testFilter);
  }

  /** Each athlete has at most one row. */
  lemma LeaderboardOnePerAthlete(athletes: seq<Store.Athlete>, assessments: seq<Store.Assessment>, sportFilter: string, testFilter: string)
    requires Leaderboard(athletes, assessments, sportFilter, testFilter).Success?
    ensures var rows := Leaderboard(athletes, assessments, sportFilter, testFilter).value;
      forall i, j :: 0 <= i < j < |rows| ==> rows[i].assessment.athleteId != rows[j].assessment.athleteId
  {
    LeaderboardUnfold(athletes, assessments, sportFilter, testFilter);
    var sorted := SortDesc(Passing(athletes, assessments, sportFilter, testFilter), Store.Score);
    forall i, j | 0 <= i < j < |TopAthletes(sorted)|
      ensures TopAthletes(sorted)[i].athleteId != TopAthletes(sorted)[j].athleteId
    {
      TopDistinct(sorted, i, j);
    }
  }

  /** Entry `j` of the top list over a sorted input is its athlete's first entry there,
      and no entry of that athlete scores higher. */
  lemma TopEntryIsBest(sorted: seq<Store.Assessment>, j: int)
    requires SortedDesc(sorted, Store.Score) && 0 <= j < |TopAthletes(sorted)|
    ensures var x := TopAthletes(sorted)[j];
      && (forall y :: y in sorted && y.athleteId == x.athleteId ==> Store.Score(y) <= Store.Score(x))
      && exists i :: 0 <= i < |sorted| && sorted[i] == x && forall k :: 0 <= k < i ==> sorted[k].athleteId != x.athleteId
  {
    var x := TopAthletes(sorted)[j];
    TopAt(sorted, j);
    var i :| IsBestAt(sorted, x.athleteId, i) && sorted[i] == x;
    BestOfSorted(sorted, x.athleteId, i);
  }

  /** Row `j` shows a passing assessment of its athlete with the highest score among that
      athlete's passing assessments, and the first such one in sorted order. */
  lemma LeaderboardRowIsBest(athletes: seq<Store.Athlete>, assessments: seq<Store.Assessment>, sportFilter: string, testFilter: string, j: int)
    requires Leaderboard(athletes, assessments, sportFilter, testFilter).Success?
    requires 0 <= j < |Leaderboard(athletes, assessments, sportFilter, testFilter).value|
    ensures var x := Leaderboard(athletes, assessments, sportFilter, testFilter).value[j].assessment;
      var sorted := SortDesc(Passing(athletes, assessments, sportFilter, testFilter), Store.Score);
      && x in assessments && Store.Passes(athletes, Some(sportFilter), Some(testFilter), x)
      && (forall y :: y in assessments && Store.Passes(athletes, Some(sportFilter), Some(testFilter), y) && y.athleteId == x.athleteId
            ==> Store.Score(y) <= Store.Score(x))
      && exists i :: 0 <= i < |sorted| && sorted[i] == x && forall k :: 0 <= k < i ==> sorted[k].athleteId != x.athleteId
  {
    LeaderboardUnfold(athletes, assessments, sportFilter, testFilter);
    var sorted := SortDesc(Passing(athletes, assessments, sportFilter, testFilter), Store.Score);
    var x := TopAthletes(sorted)[j];
    assert Leaderboard(athletes, assessments, sportFilter, testFilter).value[j].assessment == x;
    TopEntryIsBest(sorted, j);
    SortedMembers(athletes, assessments, sportFilter, testFilter);
    var i :| 0 <= i < |sorted| && sorted[i] == x && forall k :: 0 <= k < i ==> sorted[k].athleteId != x.athleteId;
    assert x in sorted;
    forall y | y in assessments && Store.Passes(athletes, Some(sportFilter), Some(testFilter), y) && y.athleteId == x.athleteId
      ensures Store.Score(y) <= Store.Score(x)
    {
      assert y in sorted;
    }
  }

  /** There are as many rows as athletes with a passing assessment, up to 20. */
  lemma LeaderboardRowCount(athletes: seq<Store.Athlete>, assessments: seq<Store.Assessment>, sportFilter: string, testFilter: string)
    requires Leaderboard(athletes, assessments, sportFilter, testFilter).Success?
    ensures |Leaderboard(athletes, assessments, sportFilter, testFilter).value|
      == SliceEnd(|AthletesOf(Passing(athletes, assessments, sportFilter, testFilter))|, 20)
  {
    LeaderboardUnfold(athletes, assessments, sportFilter, testFilter);
    var sorted := SortDesc(Passing(athletes, assessments, sportFilter, testFilter), Store.Score);
    BestKeys(athletes, assessments, sportFilter, testFilter);
    TopLength(sorted);
    assert |Best(sorted)| == |Best(sorted).Keys|;
  }

  /** With at most 20 athletes that have a passing assessment, every one of them has a row. */
  lemma LeaderboardCoversAthletes(athletes: seq<Store.Athlete>, assessments: seq<Store.Assessment>, sportFilter: string, testFilter: string, id: int)
    requires Leaderboard(athletes, assessments, sportFilter, testFilter).Success?
    requires |AthletesOf(Passing(athletes, assessments, sportFilter, testFilter))| <= 20
    requires id in AthletesOf(Passing(athletes, assessments, sportFilter, testFilter))
    ensures var rows := Leaderboard(athletes, assessments, sportFilter, testFilter).value;
      exists j :: 0 <= j < |rows| && rows[j].assessment.athleteId == id
  {
    LeaderboardUnfold(athletes, assessments, sportFilter, testFilter);
    var sorted := SortDesc(Passing(athletes, assessments, sportFilter, testFilter), Store.Score);
    BestKeys(athletes, assessments, sportFilter, testFilter);
    assert |Best(sorted)| == |Best(sorted).Keys|;
    TopComplete(sorted, id);
    var j :| 0 <= j < |TopAthletes(sorted)| && TopAthletes(sorted)[j].athleteId == id;
    assert Leaderboard(athletes, assessments, sportFilter, testFilter).value[j].assessment.athleteId == id;
  }

  /** `Object.values` lists integer keys in ascending order, so when every athlete id is an
      array index the rows are in ascending athlete-id order, whatever the scores. */
  lemma LeaderboardByAthleteId(athletes: seq<Store.Athlete>, assessments: seq<Store.Assessment>, sportFilter: string, testFilter: string)
    requires Leaderboard(athletes, assessments, sportFilter, testFilter).Success?
    requires forall x :: x in assessments ==> IsIndexKey(x.athleteId)
    ensures var rows := Leaderboard(athletes, assessments, sportFilter, testFilter).value;
      forall i, j :: 0 <= i < j < |rows| ==> rows[i].assessment.athleteId < rows[j].assessment.athleteId
  {
    LeaderboardUnfold(athletes, assessments, sportFilter, testFilter);
    var sorted := SortDesc(Passing(athletes, assessments, sportFilter, testFilter), Store.Score);
    SortedMembers(athletes, assessments, sportFilter, testFilter);
    assert forall k :: 0 <= k < |sorted| ==> IsIndexKey(sorted[k].athleteId) by {
      forall k | 0 <= k < |sorted| ensures IsIndexKey(sorted[k].athleteId) {
        assert sorted[k] in sorted;
      }
    }
    forall i, j | 0 <= i < j < |TopAthletes(sorted)|
      ensures TopAthletes(sorted)[i].athleteId < TopAthletes(sorted)[j].athleteId
    {
      TopAscending(sorted, i, j);
    }
  }

  /** Athletes 1 and 2, in that order, with one assessment each, in the same order. */
  predicate TwoAthletes(athletes: seq<Store.Athlete>, assessments: seq<Store.Assessment>) {
    && |athletes| == 2 && athletes[0].id == 1 && athletes[1].id == 2
    && |assessments| == 2 && assessments[0].athleteId == 1 && assessments[1].athleteId == 2
  }

  /** Two assessments of different athletes: each keeps its own entry, created in order. */
  lemma BestOfTwo(x: Store.Assessment, y: Store.Assessment)
    requires x.athleteId != y.athleteId
    ensures Best([x, y]) == map[x.athleteId := x, y.athleteId := y]
    ensures KeyOrder([x, y]) == [x.athleteId, y.athleteId]
  {
    assert [x, y][..1] == [x] && [x][..0] == [];
    assert Best([x]) == map[x.athleteId := x] && KeyOrder([x]) == [x.athleteId];
  }

  /** The keys 1 and 2, created in either order, are listed as 1, 2. */
  lemma PropertyOrderOfTwo(keys: seq<int>)
    requires keys == [1, 2] || keys == [2, 1]
    ensures PropertyOrder(keys) == [1, 2]
  {
    AllIndexKeys(keys);
    SortTwo(keys[0], keys[1], Negated());
  }

  /** Sorting two assessments of athletes 1 and 2 keeps one entry each, and creates the
      keys in one order or the other. */
  lemma SortedTwo(s: seq<Store.Assessment>)
    requires |s| == 2 && s[0].athleteId == 1 && s[1].athleteId == 2
    ensures Best(SortDesc(s, Store.Score)) == map[1 := s[0], 2 := s[1]]
    ensures KeyOrder(SortDesc(s, Store.Score)) == [1, 2] || KeyOrder(SortDesc(s, Store.Score)) == [2, 1]
  {
    var a0, a1 := s[0], s[1];
    assert s == [a0, a1];
    SortTwo(a0, a1, Store.Score);
    if Store.Score(a1) <= Store.Score(a0) {
      BestOfTwo(a0, a1);
    } else {
      BestOfTwo(a1, a0);
      assert map[2 := a1, 1 := a0] == map[1 := a0, 2 := a1];
    }
  }

  /** Whichever of the two scores is higher, the top list is athlete 1's entry, then
      athlete 2's. */
  lemma TwoAthletesTop(s: seq<Store.Assessment>)
    requires |s| == 2 && s[0].athleteId == 1 && s[1].athleteId == 2
    ensures TopAthletes(SortDesc(s, Store.Score)) == s
  {
    var sorted := SortDesc(s, Store.Score);
    SortedTwo(s);
    PropertyOrderOfTwo(KeyOrder(sorted));
    ValuesOfTwo(Best(sorted), s);
  }

  /** `Object.values(...).slice(0, 20)` of the two entries, keys 1 then 2. */
  lemma ValuesOfTwo(best: map<int, Store.Assessment>, s: seq<Store.Assessment>)
    requires |s| == 2 && best == map[1 := s[0], 2 := s[1]]
    ensures Take(ObjectValues(best, [1, 2]), 20) == s
  {
    var values := ObjectValues(best, [1, 2]);
    assert |values| == 2 && values[0] == s[0] && values[1] == s[1];
    assert SliceEnd(2, 20) == 2;
    assert values[..2] == values;
  }

  /** With athletes 1 and 2 and one assessment each, and no selection, athlete 1 is ranked
      first and gets gold whatever the two scores, even when athlete 2 scored higher. */
  lemma RankedByIdNotScore(athletes: seq<Store.Athlete>, assessments: seq<Store.Assessment>)
    requires TwoAthletes(athletes, assessments)
    ensures Leaderboard(athletes, assessments, "", "").Success?
    ensures var rows := Leaderboard(athletes, assessments, "", "").value;
      && |rows| == 2
      && rows[0].assessment == assessments[0] && rows[0].athlete == athletes[0] && rows[0].rankClass == "gold"
      && rows[1].assessment == assessments[1] && rows[1].athlete == athletes[1] && rows[1].rankClass == "silver"
  {
    TwoAthletesTop(assessments);
    assert Store.ApplyFilters(athletes, assessments, Some(""), Some("")) == Success(assessments);
    assert Store.FindAthlete(athletes, 1) == Some(athletes[0]);
    assert Store.FindAthlete(athletes, 2) == Some(athletes[1]);
    assert Store.FirstOrphan(athletes, assessments).None?;
  }

  // ---------------------------------------------------------------------------------
  // Leaderboard: the imperative pipeline

  /** The `athleteScores` loop: visit the sorted assessments, replacing an athlete's entry
      only on a strictly higher score; `keys` records property creation order. */
  method BestPerAthlete(sorted: seq<Store.Assessment>) returns (best: map<int, Store.Assessment>, keys: seq<int>)
    ensures best == Best(sorted) && keys == KeyOrder(sorted)
  {
    best, keys := map[], [];
    for i := 0 to |sorted|
      invariant best == Best(sorted[..i]) && keys == KeyOrder(sorted[..i])
    {
      assert sorted[..i + 1][..i] == sorted[..i];
      var a := sorted[i];
      if a.athleteId !in best {
        keys := keys + [a.athleteId];
      }
      best := Keep(best, a);
    }
    assert sorted[..|sorted|] == sorted;
  }

  /** `loadLeaderboard` against the store: the rows are `Leaderboard` of the store as it
      was, and with no selection the store's own array is left sorted by score. */
  method LoadLeaderboard(db: Store.DatabaseManager, sportFilter: string, testFilter: string)
    returns (r: Result<seq<Row>, Store.StoreError>)
    requires db.Valid()
    modifies db
    ensures db.Valid()
    ensures r == Leaderboard(old(db.athletes), old(db.assessments), sportFilter, testFilter)
    ensures db.assessments == if sportFilter == "" && testFilter == "" then SortDesc(old(db.assessments), Store.Score)
                              else old(db.assessments)
    ensures db.athletes == old(db.athletes)
    ensures db.nextAthleteId == old(db.nextAthleteId) && db.nextAssessmentId == old(db.nextAssessmentId)
  {
    var athletes := db.GetAthletes();
    var assessments := db.GetAssessments();
    var filtered := Store.ApplyFilters(athletes, assessments, Some(sportFilter), Some(testFilter));
    if filtered.Failure? {
      return Failure(filtered.error);
    }
    var sorted := SortDesc(filtered.value, Store.Score);
    if sportFilter == "" && testFilter == "" {
      db.Reorder(sorted);
    }
    r := RankRows(athletes, sorted);
  }

  /** The part of `loadLeaderboard` after the sort: best per athlete, `Object.values`, the
      first 20, and the rendered rows. */
  method RankRows(athletes: seq<Store.Athlete>, sorted: seq<Store.Assessment>)
    returns (r: Result<seq<Row>, Store.StoreError>)
    ensures r == Render(athletes, TopAthletes(sorted))
  {
    var best, keys := BestPerAthlete(sorted);
    KeyOrderSpec(sorted);
    PropertyOrderSpec(keys);
    var order := PropertyOrder(keys);
    assert forall j :: 0 <= j < |order| ==> order[j] in order;
    var top := Take(ObjectValues(best, order), 20);
    r := Render(athletes, top);
  }

  // ---------------------------------------------------------------------------------
  // Storing an analysed video

  /** `analyzeVideo` without the delay and the display: score the video, then store the
      athlete and the assessment. An unknown test type throws before anything is stored.
      The two records get their own `new Date()` stamps. */
  method AnalyzeVideo(db: Store.DatabaseManager, selectedTest: string, athlete: Scoring.AthleteData,
                      d: Scoring.Draws, registeredAt: string, assessedAt: string)
    returns (r: Result<Scoring.Results, Scoring.ScoringError>)
    requires db.Valid() && Scoring.ValidDraws(d)
    modifies db
    ensures db.Valid()
    ensures r == Scoring.ProcessVideo(selectedTest, athlete, d)
    ensures r.Failure? ==> && db.athletes == old(db.athletes) && db.assessments == old(db.assessments)
                           && db.nextAthleteId == old(db.nextAthleteId)
                           && db.nextAssessmentId == old(db.nextAssessmentId)
    ensures r.Success? ==>
      && db.athletes == old(db.athletes)
           + [Store.Athlete(old(db.nextAthleteId), athlete.name, athlete.age, athlete.gender, athlete.sport, registeredAt)]
      && db.assessments == old(db.assessments)
           + [Store.Assessment(old(db.nextAssessmentId), old(db.nextAthleteId), selectedTest, assessedAt, r.value)]
      && db.nextAthleteId == old(db.nextAthleteId) + 1 && db.nextAssessmentId == old(db.nextAssessmentId) + 1
  {
    r := Scoring.ProcessVideo(selectedTest, athlete, d);
    if r.Failure? {
      return;
    }
    var athleteId := db.AddAthlete(athlete, registeredAt);
    var _ := db.AddAssessment(athleteId, selectedTest, r.value, assessedAt);
  }

  // ---------------------------------------------------------------------------------
  // Dashboard and charts

  /** `assessments.map(a => a.overall_score)`. */
  function Scores(s: seq<Store.Assessment>): (r: seq<int>)
    ensures |r| == |s| && forall i :: 0 <= i < |s| ==> r[i] == Store.Score(s[i])
  {
    seq(|s|, i requires 0 <= i < |s| => Store.Score(s[i]))
  }

  /** The dashboard average: the mean score, or 0 without assessments. */
  function AverageScore(scores: seq<int>): (avg: real)
    ensures |scores| == 0 ==> avg == 0.0
    ensures |scores| > 0 ==> avg * |scores| as real == Sum(scores) as real
  {
    if |scores| == 0 then 0.0 else Sum(scores) as real / |scores| as real
  }

  /** The average lies between the lowest and the highest score. */
  lemma AverageBounds(scores: seq<int>, lo: int, hi: int)
    requires |scores| > 0 && forall i :: 0 <= i < |scores| ==> lo <= scores[i] <= hi
    ensures lo as real <= AverageScore(scores) <= hi as real
  {
    SumBounds(scores, lo, hi);
    var n := |scores| as real;
    assert (lo as real) * n <= Sum(scores) as real <= (hi as real) * n;
  }

  /** The three dashboard figures. */
  datatype DashboardStats = DashboardStats(totalAthletes: nat, totalAssessments: nat, averageScore: real)

  /** `updateDashboardStats`: the counts of athletes and assessments and the average score. */
  method UpdateDashboardStats(db: Store.DatabaseManager) returns (stats: DashboardStats)
    ensures stats.totalAthletes == |db.athletes| && stats.totalAssessments == |db.assessments|
    ensures stats.averageScore == AverageScore(Scores(db.assessments))
  {
    var athletes := db.GetAthletes();
    var assessments := db.GetAssessments();
    stats := DashboardStats(|athletes|, |assessments|, AverageScore(Scores(assessments)));
  }

  /** When every stored score is a percentage, so is the dashboard average. */
  lemma DashboardAverageIsPercentage(s: seq<Store.Assessment>)
    requires forall x :: x in s ==> 0 <= Store.Score(x) <= 100
    ensures 0.0 <= AverageScore(Scores(s)) <= 100.0
  {
    if |s| > 0 {
      assert forall i :: 0 <= i < |s| ==> s[i] in s;
      AverageBounds(Scores(s), 0, 100);
    }
  }

  /** A score histogram as the two analytics charts draw it: nothing without assessments,
      otherwise `createHistogramBins` of the scores. */
  method ScoreHistogram(db: Store.DatabaseManager, numBins: nat) returns (h: Option<Charts.Histogram>)
    ensures h.None? <==> |db.assessments| == 0
    ensures h.Some? ==> var scores := Scores(db.assessments);
      && |h.value.labels| == numBins
      && (forall i :: 0 <= i < numBins ==>
            h.value.labels[i] == Charts.BinRange(Charts.MinOf(scores), Charts.MaxOf(scores), numBins, i))
      && h.value.counts == Charts.Tally(scores, Charts.MinOf(scores), Charts.MaxOf(scores), numBins)
  {
    var assessments := db.GetAssessments();
    if |assessments| == 0 {
      return None;
    }
    var bins := Charts.Bin(Scores(assessments), numBins);
    h := Some(bins);
  }

  /** `loadPerformanceChart`: ten bins, which hold every assessment unless all scores are
      equal. */
  method PerformanceChart(db: Store.DatabaseManager) returns (h: Option<Charts.Histogram>)
    ensures h.None? <==> |db.assessments| == 0
    ensures h.Some? ==> |h.value.labels| == 10 && |h.value.counts| == 10
    ensures h.Some? ==> var scores := Scores(db.assessments);
      Charts.MinOf(scores) < Charts.MaxOf(scores) ==> Sum(h.value.counts) == |db.assessments|
  {
    h := ScoreHistogram(db, 10);
    if h.Some? {
      Charts.HistogramTotal(Scores(db.assessments), 10);
    }
  }

  /** `loadScoreDistributionChart`: the same with eight bins. */
  method ScoreDistributionChart(db: Store.DatabaseManager) returns (h: Option<Charts.Histogram>)
    ensures h.None? <==> |db.assessments| == 0
    ensures h.Some? ==> |h.value.labels| == 8 && |h.value.counts| == 8
    ensures h.Some? ==> var scores := Scores(db.assessments);
      Charts.MinOf(scores) < Charts.MaxOf(scores) ==> Sum(h.value.counts) == |db.assessments|
  {
    h := ScoreHistogram(db, 8);
    if h.Some? {
      Charts.HistogramTotal(Scores(db.assessments), 8);
    }
  }

  /** `loadCategoryChart`: one bar per test type present, keyed by the raw test type,
      counting its assessments. */
  method LoadCategoryChart(db: Store.DatabaseManager) returns (r: Charts.CategoryCounts)
    ensures Distinct(r.labels) && |r.labels| == |r.counts|
    ensures forall k :: k in r.labels <==> exists i :: 0 <= i < |db.assessments| && db.assessments[i].testType == k
    ensures forall j :: 0 <= j < |r.labels| ==>
      r.counts[j] == multiset(Charts.TestKeys(db.assessments, s => s))[r.labels[j]]
    ensures Sum(r.counts) == |db.assessments|
  {
    var assessments := db.GetAssessments();
    r := Charts.CountTestTypes(assessments, s => s);
  }
}
