# Sports-assessment dashboard: a verified model of its data logic

The application is a browser dashboard for a sports-assessment platform. An athlete picks a
physical test (vertical jump, sit-ups, sprint, push-ups, flexibility) and uploads a video.
The video processor makes up plausible metrics from the athlete's age and gender and a few
random draws. The result goes into an in-memory database. The dashboard then shows counts,
an average score, score histograms, per-test counts and a top-20 leaderboard.

This project models that data logic in Dafny:

- `Scoring` (scoring.dfy) models `src/utils/video-processor.js`. It is pure functions: the
  dispatch on the test key, the five per-test formulas, rounding, the percentile, the
  quality and confidence bands, and the advice tiers.
- `Store` (store.dfy) models `src/utils/database.js`. The `DatabaseManager` class keeps its
  two record lists and its two id counters as fields. Its methods append, look up, filter,
  sort in place and seed sample data. The class invariant `Valid` says every id lies below
  its counter and no two records share an id. Pure specification functions (`FindAthlete`,
  `ByAthlete`, `ApplyFilters`, `TopPerformers`, `SampleAthletes`, ...) state what the
  methods compute.
- `Charts` (charts.dfy) models the data side of `src/utils/chart-manager.js`. It covers
  equal-width histogram binning (label and counting loops as methods) and counting
  assessments per test name.
- `App` (app.dfy) models the data side of `src/main.js`:
  - storing an analysed video;
  - the dashboard count and average;
  - the inputs of the three charts;
  - the leaderboard: filter, sort by score, keep each athlete's best, list 20, rank.
- `Seqs` (seqs.dfy) holds the JavaScript array operations the others share:
  - `filter`;
  - the stable descending `sort`;
  - `slice(0, end)`, including its negative `end`;
  - summation.
- `Wrappers` (wrappers.dfy) holds `Option` and `Result`.

Modelling conventions:

- Each `Math.random()` call becomes a parameter in [0, 1).
- Timestamps (`new Date().toISOString()`) become a string parameter.
- Numbers are exact reals or unbounded integers. `Math.round(x)` is `floor(x + 0.5)`.
- A JavaScript `TypeError` the source would throw becomes a `Failure`. This happens when it
  reads `.sport` or `.name` of a missing athlete.
- Object key order follows ECMAScript. Array-index keys come first in ascending order, then
  the other keys in creation order. So `Object.values` of the leaderboard's per-athlete object
  lists athletes by ascending id, not by score. `App.LeaderboardByAthleteId` and
  `App.RankedByIdNotScore` state this.

Behaviour of the code worth knowing:

- **Histogram boundaries.** A value that falls exactly on the boundary between two bins is
  counted in the upper bin, because the index is `floor((v - min) / binSize)`
  (`Charts.BoundaryGoesUp`). Only the maximum is clamped down into the last bin
  (`Charts.EndsOfRange`).
- **Equal scores in a histogram.** When every score is the same, `binSize` is 0. The index is
  then NaN and no bin is incremented, so all counts stay 0 (`Charts.TallyAllEqual`).
- **Leaderboard order.** Rows come in ascending athlete-id order, whatever the scores
  (above).
- **Percentile range.** The percentile is capped at 99 and has no lower clamp. It is
  non-negative because scores are. For scores up to 100 it never exceeds 95
  (`Scoring.PercentileBelowCap`).
- **Missing athletes.** `addAssessment` does not validate `athleteId`, so an assessment whose
  athlete is not stored can exist. Such an assessment makes the sport filter and the
  leaderboard rendering fail (`Store.ApplyFiltersSpec`, `App.LeaderboardErrors`).

## Model

| member | source | states |
|---|---|---|
| Scoring.ParseTestType | src/utils/video-processor.js:3-9 | The dispatch table knows exactly the five test keys: a found test has the key looked up, and nothing is found exactly when no test has that key |
| Scoring.ParseKey | src/utils/video-processor.js:3-9 | Every test is found again under its own key |
| Scoring.ProcessVideo | src/utils/video-processor.js:12-20 | Fails with `UnknownTestType(key)` exactly when the key names no test; otherwise returns that test's processor result |
| Scoring.Process | src/utils/video-processor.js:14-19 | The processor the dispatch table holds for a test: its overall score is a percentage and its metric carries that test's name and unit |
| Scoring.ProcessVideoBounds | src/utils/video-processor.js:12-20 | For every accepted key and every draw: score in [0, 100], percentile in [0, 99], quality in [80, 100), confidence in [0.9, 1), no flags, three advice lines chosen by the unrounded score |
| Scoring.Round | src/utils/video-processor.js:32 | `Math.round`: the result is within half a unit of the input, and halves round up |
| Scoring.RoundMonotone | src/utils/video-processor.js:32 | Rounding never reverses an order |
| Scoring.RoundInt | src/utils/video-processor.js:32 | Rounding leaves an integer unchanged |
| Scoring.JumpHeight | src/utils/video-processor.js:24-28 | The simulated jump is at least 20 cm for every athlete and draw |
| Scoring.JumpScore | src/utils/video-processor.js:29 | The jump score lies in [0, 100], is at least 100/3 for any reachable height, and is 100 from 60 cm on |
| Scoring.RawScore | src/utils/video-processor.js:28-29 | The unrounded score of each test's processor, the one the percentile and the advice read; it lies in [0, 100] |
| Scoring.ProcessVerticalJump | src/utils/video-processor.js:22-50 | A vertical-jump result scores in [33, 100] with a height of at least 20 cm; its overall score is the rounded jump score of the height it reports |
| Scoring.HigherJumpNeverScoresLower | src/utils/video-processor.js:28-32 | Of two jump results, the one with the higher jump never has the lower overall score |
| Scoring.SitupReps | src/utils/video-processor.js:53-57 | The simulated count is a whole number of at least 10 repetitions |
| Scoring.SitupScore | src/utils/video-processor.js:58 | Two points per repetition, capped at 100, so never below 20 |
| Scoring.ProcessSitups | src/utils/video-processor.js:52-79 | A sit-up result scores in [20, 100]: exactly twice the repetitions, or 100 from 50 repetitions on |
| Scoring.SprintTime | src/utils/video-processor.js:82-86 | The simulated sprint takes at least 5.5 s |
| Scoring.SprintScore | src/utils/video-processor.js:87 | The sprint score lies in [0, 100]: 100 at 6 s or faster, 0 at 10 s or slower |
| Scoring.SprintScoreMonotone | src/utils/video-processor.js:87 | A faster time never scores lower |
| Scoring.ProcessSprint | src/utils/video-processor.js:81-108 | A sprint result scores in [0, 100] with a time of at least 5.5 s, and scores 100 when the time is at most 6 s; its overall score is the rounded sprint score of the time it reports |
| Scoring.SlowerSprintNeverScoresHigher | src/utils/video-processor.js:86-90 | Of two sprint results, the one with the slower time never has the higher overall score |
| Scoring.PushupReps | src/utils/video-processor.js:111-115 | The simulated count is a whole number of at least 5 repetitions |
| Scoring.PushupScore | src/utils/video-processor.js:116 | 2.5 points per repetition, capped at 100, so never below 12.5 |
| Scoring.PushupOverall | src/utils/video-processor.js:116-119 | The rounded push-up score is (5·reps + 1) / 2 below 40 repetitions and 100 from 40 on |
| Scoring.ProcessPushups | src/utils/video-processor.js:110-137 | A push-up result scores in [13, 100] with a whole number of at least 5 repetitions; its overall score is the rounded push-up score of that count |
| Scoring.Reach | src/utils/video-processor.js:140-144 | The simulated reach is never negative |
| Scoring.FlexibilityScore | src/utils/video-processor.js:145 | The flexibility score lies in [0, 100] and is 100 from 25 cm on |
| Scoring.ProcessFlexibility | src/utils/video-processor.js:139-166 | A flexibility result scores in [0, 100] with a non-negative reach; its overall score is the rounded flexibility score of that reach |
| Scoring.CalculatePercentile | src/utils/video-processor.js:168-173 | The percentile is at most 99, non-negative for a non-negative score, and at least the rounded age-adjusted base unless it hit the cap |
| Scoring.PercentileBelowCap | src/utils/video-processor.js:168-173 | For any score up to 100 the percentile stays at or below 95, so the cap of 99 never applies |
| Scoring.TierOf | src/utils/video-processor.js:204-205 | High exactly from 80, Medium exactly in [60, 80), Low exactly below 60 |
| Scoring.Advice | src/utils/video-processor.js:176-202 | Every test and tier has three advice lines |
| Scoring.GetRecommendations | src/utils/video-processor.js:175-206 | Returns the three lines of the tier the (unrounded) score falls in |
| Scoring.QualityBase | src/utils/video-processor.js:43-159 | The lowest quality score of each test (85, 80, 90, 82, 88); the definition, bounded by `BuildResults` and `ProcessVideoBounds` |
| Scoring.QualitySpan | src/utils/video-processor.js:43-159 | The quality draw's width for each test, reaching exactly 100 from the base; the definition, bounded by `BuildResults` |
| Scoring.ConfidenceBase | src/utils/video-processor.js:45-161 | The lowest cheat-detection confidence of each test (0.95, 0.92, 0.98, 0.90, 0.93); the definition, bounded by `BuildResults` and `ProcessVideoBounds` |
| Scoring.ConfidenceSpan | src/utils/video-processor.js:45-161 | The confidence draw's width for each test, reaching exactly 1 from the base; the definition, bounded by `BuildResults` |
| Scoring.BuildResults | src/utils/video-processor.js:31-49 | The shared result record: score is the rounded raw score in [0, 100], percentile at most 95, quality in [base, 100), confidence in [base, 1), no flags, advice of the raw score's tier, the test's metric name and unit |
| Scoring.MetricName | src/utils/video-processor.js:35 | The primary metric's name per test (Jump Height, Repetitions, Time, Repetitions, Reach Distance), shared with the sample data's `getMetricName` at src/utils/database.js:63-72; the definition, which `BuildResults` and `Process` attach to every result |
| Scoring.MetricUnit | src/utils/video-processor.js:36 | The primary metric's unit per test (cm, reps, seconds, reps, cm), shared with the sample data's `getMetricUnit` at src/utils/database.js:74-83; the definition, which `BuildResults` and `Process` attach to every result |
| Scoring.SitupsNeutralJitter | src/utils/video-processor.js:52-61 | Worked example: a 20-year-old male with neutral jitter does 37 sit-ups, scores 74 and gets the Medium advice |
| Scoring.AdviceUsesUnroundedScore | src/utils/video-processor.js:29-48 | Worked example: a raw jump score of 79.6 is shown as 80 but gets the Medium advice, because the tier reads the unrounded score |
| Store.DatabaseManager.constructor | src/utils/database.js:2-12 | A new store is empty and both counters start at 1 |
| Store.DatabaseManager.Valid | src/utils/database.js:10-11 | The store invariant the id counters keep: every stored id is at least 1 and below its counter, athlete ids increase in storage order, and no two assessments share an id; every method that changes the store keeps it |
| Store.DatabaseManager.AddAthlete | src/utils/database.js:85-93 | Appends one athlete under the next athlete id, which is larger than every stored id, and bumps only that counter |
| Store.DatabaseManager.AddAssessment | src/utils/database.js:95-105 | Appends one assessment under the next assessment id (larger than every stored id) and the caller's athlete id, unvalidated; bumps only that counter |
| Store.DatabaseManager.GetAthletes | src/utils/database.js:107-109 | Returns the stored athletes |
| Store.DatabaseManager.GetAssessments | src/utils/database.js:115-117 | Returns the stored assessments |
| Store.Active | src/utils/database.js:126-135 | JavaScript truthiness of a filter argument: `null` and `""` switch the filter off; the definition, used by `ApplyFiltersSpec` |
| Store.FirstOrphan | src/utils/database.js:126-131 | Nothing exactly when every assessment's athlete is stored; otherwise the athlete id of an assessment whose athlete is missing, the one the sport filter throws on |
| Store.ApplyFilters | src/utils/database.js:123-135 | The two filters in source order, the sport one throwing on a missing athlete; the definition, whose meaning `ApplyFiltersSpec` states |
| Store.TopPerformers | src/utils/database.js:123-139 | The query fails exactly when the sport filter is active and meets an assessment without an athlete; its results are stated by the four `TopPerformers...` lemmas |
| Store.RepeatedQueryIsStable | src/utils/database.js:137-139 | Sorting the live array a second time changes nothing, so a repeated unfiltered query leaves the store as the first left it and returns the same list |
| Store.RandomMetric | src/utils/database.js:52-61 | For a draw in [0, 1) each sample metric lies in its test's range (jump [40, 60), sit-ups [25, 45], sprint [6.5, 8.5), push-ups [20, 45], flexibility [15, 25)), and the repetition counts are whole numbers |
| Store.FindAthlete | src/utils/database.js:111-113 | `find` by id: nothing exactly when no athlete has the id, otherwise the first athlete with it |
| Store.FindStoredAthlete | src/utils/database.js:111-113 | In a store with increasing ids, looking up a stored athlete's id finds that athlete |
| Store.DatabaseManager.GetAthlete | src/utils/database.js:111-113 | The lookup loop returns what `FindAthlete` specifies |
| Store.ByAthlete | src/utils/database.js:119-121 | An assessment is in the result exactly when it is stored and belongs to the athlete |
| Store.ByAthleteCounts | src/utils/database.js:119-121 | The result keeps every one of the athlete's assessments as often as stored and nothing else |
| Store.DatabaseManager.GetAssessmentsByAthlete | src/utils/database.js:119-121 | The filtering loop returns what `ByAthlete` specifies |
| Store.ApplyFiltersSpec | src/utils/database.js:123-135 | The filter step fails exactly when a sport filter is active and some assessment's athlete is missing; otherwise it keeps exactly the assessments of the selected sport and test (an empty selection filters nothing), in stored order |
| Store.TopPerformersPrefix | src/utils/database.js:137-139 | The top performers are the first `limit` (with `slice`'s negative-limit rule) of the sorted filtered list |
| Store.TopPerformersSorted | src/utils/database.js:123-139 | They are sorted by descending score, no more than `limit` of them, each a stored assessment passing the filters |
| Store.TopPerformersAreTop | src/utils/database.js:137-139 | They come from the filtered list, and every filtered assessment left out scores no higher than any kept one |
| Store.TopPerformersStable | src/utils/database.js:137-139 | Among equal scores the kept ones appear in their stored order |
| Store.DatabaseManager.GetTopPerformers | src/utils/database.js:123-140 | Returns the top performers of the old state; without filters the stored list itself is left sorted (the source sorts the live array), with filters it is untouched; the invariant is kept |
| Store.DatabaseManager.Reorder | src/utils/database.js:137-138 | Replacing the assessments by a permutation of themselves keeps the store invariant |
| Store.PermutationKeepsIds | src/utils/database.js:137-138 | A permutation of assessments with unique ids below the counter again has unique ids below the counter |
| Store.SampleResults | src/utils/database.js:33-46 | A sample result has no flags and no advice; for draws in [0, 1) it scores in [65, 95] and its percentile lies in [52, 96] |
| Store.SampleAthleteData | src/utils/database.js:16-20 | The three sample athletes' form data, in order; the definition, used by `SampleAthlete` |
| Store.SampleTest | src/utils/database.js:26-30 | The three sample tests each athlete gets, in order: vertical jump, sit-ups, sprint; the definition, whose effect `SampleDataOnFreshStore` states |
| Store.SampleScore | src/utils/database.js:26-30 | The raw sample score per test (75 + 20r, 70 + 25r, 65 + 30r); the definition, bounded through `SampleResults` |
| Store.SampleAthletes | src/utils/database.js:22-23 | The athletes seeding appends: one per sample entry, with consecutive ids from the counter |
| Store.SampleAssessment | src/utils/database.js:32-47 | The k-th seeded assessment: test k mod 3 of athlete k / 3 with the k-th draw; the definition, whose fields `SampleDataOnFreshStore` states |
| Store.SampleAssessments | src/utils/database.js:24-48 | The assessments seeding appends: one per draw, three per athlete, in loop order |
| Store.DatabaseManager.InitializeSampleData | src/utils/database.js:14-50 | Seeding appends the three sample athletes and nine sample assessments (three per athlete, in test order) and advances the counters by 3 and 9 |
| Store.DatabaseManager.AddSampleAthlete | src/utils/database.js:22-49 | One turn of the outer seeding loop appends the next sample athlete and its three assessments |
| Store.DatabaseManager.AddSampleTests | src/utils/database.js:32-48 | The inner seeding loop appends one athlete's three sample assessments |
| Store.DatabaseManager.AddSampleAssessment | src/utils/database.js:33-47 | One turn of the inner loop appends the next sample assessment |
| Store.SampleDataOnFreshStore | src/utils/database.js:14-50 | On a fresh store the sample athletes get ids 1 to 3; assessment k gets id k + 1, athlete k / 3 + 1 and the tests vertical jump, sit-ups, sprint in turn |
| Seqs.Filter | src/utils/database.js:127-135 | `filter` keeps exactly the elements that satisfy the predicate |
| Seqs.FilterMultiset | src/utils/database.js:127-135 | `filter` keeps each satisfying element as often as it occurs and drops the others |
| Seqs.SortDesc | src/utils/database.js:138 | The descending sort is a permutation and is sorted |
| Seqs.SortDescStable | src/utils/database.js:138 | The sort is stable: elements with equal keys keep their order |
| Seqs.SortDescSorted | src/utils/database.js:138 | Sorting a sorted list changes nothing |
| Seqs.SortedPrefixIsTop | src/utils/database.js:137-139 | A prefix of the sorted list holds elements of the input, and no element left out has a higher key than one kept |
| Seqs.Take | src/utils/database.js:139 | `slice(0, end)` is a prefix whose length follows `slice`'s rules for a negative or too-large end |
| Seqs.SumBounds | src/main.js:293-295 | A sum of values in [lo, hi] lies in [n·lo, n·hi] |
| Seqs.Sum | src/main.js:294 | `reduce((sum, x) => sum + x, 0)` over integer scores; the definition, whose use `AverageScore` and `SumBounds` state |
| Charts.MinOf | src/utils/chart-manager.js:201 | `Math.min(...data)` is an element no larger than any other |
| Charts.MaxOf | src/utils/chart-manager.js:202 | `Math.max(...data)` is an element no smaller than any other |
| Charts.BinIndex | src/utils/chart-manager.js:203-216 | A value names a bin exactly when the values are not all equal and there is a bin, and then the bin is in range |
| Charts.BinIndexIsFloor | src/utils/chart-manager.js:215 | The integer bin index equals the floor of the source's real quotient `(v - min) / binSize` |
| Charts.BinIndexSpec | src/utils/chart-manager.js:203-216 | Bin b holds exactly the values from its start up to but excluding its end, and the last bin also holds the maximum |
| Charts.EndsOfRange | src/utils/chart-manager.js:214-217 | The minimum is counted in the first bin and the maximum in the last |
| Charts.BoundaryGoesUp | src/utils/chart-manager.js:215 | A value on the boundary where bin b starts is counted in bin b, not the bin below |
| Charts.TallyTotal | src/utils/chart-manager.js:214-217 | Unless all values are equal, every value is counted exactly once |
| Charts.TallyAllEqual | src/utils/chart-manager.js:214-217 | When all values are equal no bin is incremented |
| Charts.TallyCounts | src/utils/chart-manager.js:214-217 | Each count is the number of values that fall in its bin |
| Charts.BinRangesTile | src/utils/chart-manager.js:208-212 | The label ranges tile [min, max]: the first starts at min, the last ends at max, each starts where the previous ends |
| Charts.Tally | src/utils/chart-manager.js:205-217 | The counts the counting loop accumulates, one per bin; their meaning is stated by `TallyCounts`, `TallyTotal` and `TallyAllEqual` |
| Charts.BinRange | src/utils/chart-manager.js:208-212 | The numeric ends of bin i's label, min + i·binSize and min + (i + 1)·binSize; that they tile [min, max] is `BinRangesTile` |
| Charts.BinLabels | src/utils/chart-manager.js:208-212 | The label loop produces one range per bin, bin i's range |
| Charts.CountBins | src/utils/chart-manager.js:205-217 | The counting loop over a zero-filled array produces the per-bin counts |
| Charts.CreateHistogramBins | src/utils/chart-manager.js:198-220 | Empty data gives empty labels and counts; otherwise one label and one count per bin, as above, over [min, max] |
| Charts.Bin | src/main.js:489-509 | `main.js`'s copy, which needs non-empty data, gives one label and one count per bin over [min, max] |
| Charts.HistogramTotal | src/utils/chart-manager.js:214-217 | The counts add up to the number of values when they are not all equal, and are all 0 when they are |
| Charts.CountByKey | src/utils/chart-manager.js:93-97 | The counting object has each key once, exactly the keys that occur, each counted as often as it occurs, in total as many as there are keys |
| Charts.ReplaceFirstUnderscore | src/utils/chart-manager.js:95 | `replace('_', ' ')` on a string pattern keeps the length; which character changes is `ReplaceFirstAt` |
| Charts.ToUpper | src/utils/chart-manager.js:95 | `toUpperCase` character by character: same length, each letter upper-cased |
| Charts.DisplayName | src/utils/chart-manager.js:95 | The category name keeps the key's length and has no lower-case letter left; `DisplayNamesDistinct` shows no two tests share one |
| Charts.ReplaceFirstAt | src/utils/chart-manager.js:95 | `replace('_', ' ')` turns only the first underscore into a space |
| Charts.DisplayNamesDistinct | src/utils/chart-manager.js:95 | Different tests get different display names, so counting by display name does not merge two tests |
| Charts.CountTestTypes | src/utils/chart-manager.js:93-97 | Counting assessments by a name of their test: each name once, exactly the names that occur, each with its number of assessments, in total all assessments |
| Charts.CreateTestCategoryChart | src/utils/chart-manager.js:92-97 | The same counts keyed by display name |
| App.AnalyzeVideo | src/main.js:133-166 | Returns the processor's result; when it succeeds, exactly one athlete (with its registration stamp) and one assessment of that athlete, test and result (with its own stamp) are appended under the next ids; when the test key is unknown, the store is unchanged |
| App.AverageScore | src/main.js:293-295 | The average is 0 for no assessments, otherwise the sum divided by the count |
| App.AverageBounds | src/main.js:293-295 | An average of values in [lo, hi] lies in [lo, hi] |
| App.DashboardAverageIsPercentage | src/main.js:293-295 | With scores in [0, 100] the dashboard average lies in [0, 100] |
| App.UpdateDashboardStats | src/main.js:290-300 | The dashboard shows the athlete count, the assessment count and the average score |
| App.ScoreHistogram | src/main.js:302-313 | No chart exactly when there are no assessments; otherwise the binning of all scores over their range |
| App.PerformanceChart | src/main.js:302-313 | Ten bins, whose counts cover every assessment unless all scores are equal |
| App.ScoreDistributionChart | src/main.js:359-366 | Eight bins, whose counts cover every assessment unless all scores are equal |
| App.LoadCategoryChart | src/main.js:387-394 | Counts per raw test key: each key once, exactly the keys that occur, each with its number of assessments, in total all assessments |
| App.Scores | src/main.js:312 | `assessments.map(a => a.overall_score)`: one score per assessment, in order |
| App.Keep | src/main.js:450-454 | One step of the best-per-athlete loop: an entry is replaced only by a strictly higher score; the definition, whose effect `BestAt` states |
| App.Best | src/main.js:449-455 | The per-athlete object after the loop; `BestAt` and `BestDomain` state what it holds |
| App.KeyOrder | src/main.js:449-455 | The order in which the loop creates the object's properties; `KeyOrderSpec` states it lists each athlete once |
| App.BestAt | src/main.js:449-455 | After the loop, an athlete has an entry exactly when they have an assessment, and it is their first assessment with the highest score |
| App.KeyOrderSpec | src/main.js:449-455 | The loop creates each athlete's property once, exactly for the athletes that have an entry |
| App.BestOfSorted | src/main.js:446-455 | In the sorted list, no earlier assessment belongs to the athlete of a best entry |
| App.BestPerAthlete | src/main.js:449-455 | The loop builds the per-athlete best entries and their creation order |
| App.PropertyOrder | src/main.js:457 | ECMAScript own-property order: array-index keys ascending, then the others in creation order; the definition, whose properties `PropertyOrderSpec` and `AllIndexKeys` state |
| App.ObjectValues | src/main.js:457 | `Object.values` of the per-athlete object: entry j is the value under the j-th key in property order |
| App.PropertyOrderSpec | src/main.js:457 | Property enumeration reorders the keys without losing or repeating one |
| App.AllIndexKeys | src/main.js:457 | When every key is an array index, enumeration order is the keys sorted ascending |
| App.PropertyOrderAscending | src/main.js:457 | Distinct array-index keys are enumerated in strictly ascending order |
| App.TopAthletes | src/main.js:457 | `Object.values(athleteScores).slice(0, 20)`; the definition, whose properties the `Top...` lemmas state |
| App.TopLength | src/main.js:457 | The list has one entry per athlete, cut to 20 |
| App.TopDistinct | src/main.js:457 | No athlete appears twice in the list |
| App.TopComplete | src/main.js:457 | With at most 20 athletes, every athlete appears |
| App.TopAscending | src/main.js:457 | With array-index athlete ids, the list is in ascending id order |
| App.RankClass | src/main.js:462-466 | Only ranks 1 to 3 get a badge |
| App.RankClassesDistinct | src/main.js:462-466 | The three badges are different |
| App.Render | src/main.js:459-486 | The row template, failing at the first entry whose athlete is missing; `RenderRows` states its rows |
| App.RenderRows | src/main.js:459-486 | Without missing athletes, rendering gives one row per entry, ranked from 1, with the rank's badge, top-three styling for ranks 1 to 3 and the entry's athlete |
| App.Leaderboard | src/main.js:427-486 | `loadLeaderboard` as a function of the store and the two selections; the `Leaderboard...` lemmas below state its errors, ranks and rows |
| App.FilterStage | src/main.js:434-444 | The leaderboard's filter stage is the store's filter chain on the two selections: it fails exactly on a missing athlete under a sport selection, otherwise it keeps the passing assessments |
| App.LeaderboardErrors | src/main.js:434-444 | The leaderboard fails when a sport is selected and some assessment's athlete is missing, and succeeds when no athlete is missing |
| App.Passing | src/main.js:434-443 | The assessments that pass the sport and test selections, in stored order; the definition, which `FilterStage` equates with the store's filter chain |
| App.LeaderboardRanks | src/main.js:457-486 | At most 20 rows, ranked 1, 2, ... with badges gold, silver, bronze, then none, each showing its assessment's athlete |
| App.LeaderboardOnePerAthlete | src/main.js:449-457 | No athlete has two rows |
| App.TopEntryIsBest | src/main.js:446-455 | Each listed entry is the athlete's highest score, and the first such in sorted order |
| App.LeaderboardRowIsBest | src/main.js:434-457 | Each row shows an assessment that passes the filters and the highest-scoring one of its athlete among those that pass |
| App.LeaderboardRowCount | src/main.js:449-457 | There are as many rows as athletes with a passing assessment, at most 20 |
| App.LeaderboardCoversAthletes | src/main.js:449-457 | With at most 20 such athletes, every one of them has a row |
| App.LeaderboardByAthleteId | src/main.js:449-457 | With array-index athlete ids, rows are in ascending athlete-id order, not by score |
| App.TwoAthletesTop | src/main.js:446-457 | Worked example: with two athletes, one assessment each, the list is the assessments in id order whatever their scores |
| App.RankedByIdNotScore | src/main.js:427-466 | Worked example: athlete 1 gets gold and athlete 2 silver, whichever scored higher |
| App.RankRows | src/main.js:449-466 | The best-per-athlete loop, enumeration, the cut to 20 and rendering give the specified rows |
| App.LoadLeaderboard | src/main.js:427-466 | Gives the specified leaderboard of the old store. Without filters the stored list is left sorted by score, because the source sorts the live array; otherwise it is untouched. The invariant is kept |

## Left out

- The DOM, templates, CSS classes other than the rank badge, button states and the 3-second
  `setTimeout` delay in `analyzeVideo` are presentation and timing. Only the data each view
  receives is modelled.
- Chart.js, `ChartManager`'s chart registry, its chart options and `animateCountUp` are
  rendering. Only the bin and category data they are given is modelled.
- `src/utils/ui-manager.js` is presentation. It is not part of this model.
- `app.py` is a separate Streamlit demo page with its own data. It is not part of the
  JavaScript core and not part of this model.
- The display mapping that `main.js` applies to the category chart's labels is not
  modelled, because it changes only the label strings. The labels are kept as raw test keys.
  The same `replace`/`toUpperCase` mapping is modelled where `chart-manager.js` counts by it.
- Number formatting is not modelled: `toFixed`, the label strings `"start-end"` and the
  dashboard's one-decimal average. Labels are kept as the pairs of numeric range ends; the
  average is kept as an exact real.
- The processors store `primary_metric` as a `toFixed` string for jump, sprint and flexibility.
  The sample generator does the same in `getRandomMetric`. The model keeps the unrounded
  number, so `metrics.primaryMetric` is the value the score was computed from, before display
  rounding.
- Floating-point rounding is not modelled. Arithmetic is exact, so results that differ from
  IEEE doubles only in the last bits are not distinguished.
- The secondary metrics (`Math.sqrt` of further draws) and their random draws are left out.
  Only the primary metric, its name and unit are part of `Results`.
- `Math.random` and `new Date()` are parameters. All sample records share one timestamp
  parameter.
- `App.AnalyzeVideo` takes two timestamp parameters, one for the athlete and one for the
  assessment, as the two store calls each read the clock.
- `toUpperCase` is modelled for ASCII letters only. Test keys are ASCII.
- The dispatch lookup's prototype-chain keys (`"constructor"`, `"toString"`, ...) are not
  modelled. Every key other than the five fails with `UnknownTestType`.
- The object spreads `...athleteData` and `...results` copy only the modelled fields. Extra
  fields, and an `id` inside the data that would override the store's, are not modelled.
- A null `selectedTest` and a NaN age (from `parseInt`) are not modelled. Age is an integer
  and the test key a string.
- Category keys that are array indices would be enumerated first by `Object.keys`. This is
  not modelled, because test keys and display names are never numeric. Counts are listed in
  first-occurrence order.
- Charts.CreateHistogramBins: data are integer overall scores, and the bin index uses exact
  arithmetic rather than IEEE doubles. The same holds for Charts.Bin and Charts.BinIndex.
- Charts.Bin: `main.js`'s histogram copy is modelled only on non-empty data. Both its callers
  return early when there are no assessments.
- A negative `numBins` is not modelled. Bin counts are natural numbers; `Array(-1)` would
  throw.
- The officials' credential check and its hard-coded officials list are left out. They are
  authentication UI, not data logic.
- `VideoProcessor` also holds unused copies of the store methods, from `addAthlete` to
  `getPerformanceStats` (`video-processor.js` lines 208-280). They are never called on a
  `VideoProcessor` and are not modelled.
- Aliasing of the live assessments array is modelled only where it shows: the in-place sorts
  in `getTopPerformers` and `loadLeaderboard` write the store's list through
  `DatabaseManager.Reorder`.
- Scoring.Advice: only the number of lines is stated, not their texts. The texts are the
  function's definition.
