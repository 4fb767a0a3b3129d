/** The data side of src/utils/chart-manager.js: equal-width histogram binning of scores
    and the per-test counts behind the category chart. Chart objects are not modelled. */
module Charts {
  import opened Wrappers
  import opened Seqs
  import Store
  import Scoring

  /** `Math.min(...data)`. */
  function MinOf(s: seq<int>): (m: int)
    requires |s| > 0
    ensures m in s && forall i :: 0 <= i < |s| ==> m <= s[i]
  {
    if |s| == 1 then s[0]
    else
      var r := MinOf(s[1..]);
      assert forall i :: 1 <= i < |s| ==> s[i] == s[1..][i - 1];
      if s[0] <= r then s[0] else r
  }

  /** `Math.max(...data)`. */
  function MaxOf(s: seq<int>): (m: int)
    requires |s| > 0
    ensures m in s && forall i :: 0 <= i < |s| ==> s[i] <= m
  {
    if |s| == 1 then s[0]
    else
      var r := MaxOf(s[1..]);
      assert forall i :: 1 <= i < |s| ==> s[i] == s[1..][i - 1];
      if s[0] >= r then s[0] else r
  }

  predicate InRange(data: seq<int>, lo: int, hi: int) {
    forall i :: 0 <= i < |data| ==> lo <= data[i] <= hi
  }

  /** The bin that `bins[binIndex]++` increments for value `v`, where
      binIndex = min(floor((v - lo) / binSize), n - 1) and binSize = (hi - lo) / n.
      None when that index names no element: NaN when hi == lo (0 / 0), and -1 when
      there are no bins. */
  function BinIndex(v: int, lo: int, hi: int, n: nat): (b: Option<nat>)
    requires lo <= v <= hi
    ensures b.Some? <==> lo < hi && n > 0
    ensures b.Some? ==> b.value < n
  {
    if hi == lo || n == 0 then None
    else
      MulMono(0, v - lo, n);
      var q := (v - lo) * n / (hi - lo);
      Some(if q < n - 1 then q else n - 1)
  }

  lemma MulCancel(a: int, b: int, d: int)
    requires d > 0 && a * d < b * d
    ensures a < b
  {
  }

  lemma MulMono(a: int, b: int, d: int)
    requires a <= b && d >= 0
    ensures a * d <= b * d
  {
  }

  /** The quotient q of x * n by d satisfies q * d <= x * n < (q + 1) * d. */
  lemma QuotientBounds(xn: int, d: int)
    requires d > 0
    ensures (xn / d) * d <= xn < (xn / d + 1) * d
  {
  }

  /** The integer quotient is the floor of the source's real-valued index. */
  lemma BinIndexIsFloor(v: int, lo: int, hi: int, n: nat)
    requires lo <= v <= hi && lo < hi && n > 0
    ensures ((v - lo) as real / ((hi - lo) as real / n as real)).Floor == (v - lo) * n / (hi - lo)
  {
    var x, d := v - lo, hi - lo;
    var q, rm := x * n / d, x * n % d;
    assert x * n == q * d + rm && 0 <= rm < d;
    var binSize := d as real / n as real;
    assert x as real / binSize == (x * n) as real / d as real;
    assert (x * n) as real / d as real == q as real + rm as real / d as real;
    assert 0.0 <= rm as real / d as real < 1.0;
  }

  /** Bin `b` holds the values from its start, lo + b * binSize, up to but excluding its
      end; the last bin also holds `hi`. */
  lemma BinIndexSpec(v: int, lo: int, hi: int, n: nat, b: nat)
    requires lo <= v <= hi && lo < hi && 0 <= b < n
    ensures BinIndex(v, lo, hi, n) == Some(b) <==>
      b * (hi - lo) <= (v - lo) * n && ((v - lo) * n < (b + 1) * (hi - lo) || b == n - 1)
  {
    var x, d := v - lo, hi - lo;
    var xn := x * n;
    var q := xn / d;
    QuotientBounds(xn, d);
    MulMono(x, d, n);
    assert xn <= d * n;
    if BinIndex(v, lo, hi, n) == Some(b) {
      if q >= n - 1 {
        MulMono(n - 1, q, d);
      }
    }
    if b * d <= xn && (xn < (b + 1) * d || b == n - 1) {
      MulCancel(b, q + 1, d);
      if xn < (b + 1) * d {
        MulCancel(q, b + 1, d);
      }
    }
  }

  /** The minimum lands in the first bin and the maximum in the last. */
  lemma EndsOfRange(lo: int, hi: int, n: nat)
    requires lo < hi && n > 0
    ensures BinIndex(lo, lo, hi, n) == Some(0)
    ensures BinIndex(hi, lo, hi, n) == Some(n - 1)
  {
    BinIndexSpec(lo, lo, hi, n, 0);
    BinIndexSpec(hi, lo, hi, n, n - 1);
  }

  /** A value on the boundary where bin b starts is counted in bin b. */
  lemma BoundaryGoesUp(v: int, lo: int, hi: int, n: nat, b: nat)
    requires lo <= v <= hi && lo < hi && 0 <= b < n
    requires (v - lo) * n == b * (hi - lo)
    ensures BinIndex(v, lo, hi, n) == Some(b)
  {
    BinIndexSpec(v, lo, hi, n, b);
  }

  /** The counts the binning loop accumulates over `data`, one value at a time. */
  function Tally(data: seq<int>, lo: int, hi: int, n: nat): (c: seq<nat>)
    requires InRange(data, lo, hi)
    ensures |c| == n
  {
    if data == [] then seq(n, _ => 0)
    else
      var c := Tally(data[..|data| - 1], lo, hi, n);
      match BinIndex(data[|data| - 1], lo, hi, n)
      case None => c
      case Some(b) => c[b := c[b] + 1]
  }

  /** When the values are not all equal and there is a bin, every value is counted once. */
  lemma {:induction false} TallyTotal(data: seq<int>, lo: int, hi: int, n: nat)
    requires InRange(data, lo, hi) && lo < hi && n > 0
    ensures Sum(Tally(data, lo, hi, n)) == |data|
  {
    if data == [] {
      SumZeros(n);
    } else {
      var p := data[..|data| - 1];
      TallyTotal(p, lo, hi, n);
      var b := BinIndex(data[|data| - 1], lo, hi, n).value;
      SumIncrement(Tally(p, lo, hi, n), b);
    }
  }

  /** When all values are equal nothing is counted (the index is NaN). */
  lemma {:induction false} TallyAllEqual(data: seq<int>, lo: int, n: nat)
    requires InRange(data, lo, lo)
    ensures Tally(data, lo, lo, n) == seq(n, _ => 0)
  {
    if data != [] {
      TallyAllEqual(data[..|data| - 1], lo, n);
    }
  }

  function IsInBin(lo: int, hi: int, n: nat, b: nat): int -> bool {
    v => lo <= v <= hi && BinIndex(v, lo, hi, n) == Some(b)
  }

  /** Each count is the number of values whose bin it is. */
  lemma {:induction false} TallyCounts(data: seq<int>, lo: int, hi: int, n: nat, b: nat)
    requires InRange(data, lo, hi) && b < n
    ensures Tally(data, lo, hi, n)[b] == |Filter(data, IsInBin(lo, hi, n, b))|
  {
    if data != [] {
      var p, v := data[..|data| - 1], data[|data| - 1];
      assert data == p + [v];
      TallyCounts(p, lo, hi, n, b);
      FilterSnoc(p, v, IsInBin(lo, hi, n, b));
    }
  }

  /** The numeric ends of bin `i`'s label: lo + i * binSize and lo + (i + 1) * binSize. */
  function BinRange(lo: int, hi: int, n: nat, i: int): (real, real)
    requires n > 0
  {
    var binSize := (hi - lo) as real / n as real;
    (lo as real + i as real * binSize, lo as real + (i + 1) as real * binSize)
  }

  /** The labels tile [lo, hi]: each starts where the previous ends. */
  lemma BinRangesTile(lo: int, hi: int, n: nat, i: int)
    requires n > 0 && 0 <= i < n
    ensures i == 0 ==> BinRange(lo, hi, n, i).0 == lo as real
    ensures i == n - 1 ==> BinRange(lo, hi, n, i).1 == hi as real
    ensures i < n - 1 ==> BinRange(lo, hi, n, i).1 == BinRange(lo, hi, n, i + 1).0
  {
    var binSize := (hi - lo) as real / n as real;
    assert n as real * binSize == (hi - lo) as real;
  }

  /** The label loop: one range per bin. */
  method BinLabels(lo: int, hi: int, n: nat) returns (labels: seq<(real, real)>)
    ensures |labels| == n
    ensures forall i :: 0 <= i < n ==> labels[i] == BinRange(lo, hi, n, i)
  {
    labels := [];
    for i := 0 to n
      invariant |labels| == i
      invariant forall j :: 0 <= j < i ==> labels[j] == BinRange(lo, hi, n, j)
    {
      var binSize := (hi - lo) as real / n as real;
      var start := lo as real + i as real * binSize;
      var stop := lo as real + (i + 1) as real * binSize;
      assert start == BinRange(lo, hi, n, i).0;
      assert stop == BinRange(lo, hi, n, i).1;
      labels := labels + [(start, stop)];
    }
  }

  /** The counting loop: `bins` starts as `n` zeros and each value bumps its bin. */
  method CountBins(data: seq<int>, lo: int, hi: int, n: nat) returns (counts: seq<nat>)
    requires InRange(data, lo, hi)
    ensures counts == Tally(data, lo, hi, n)
  {
    var bins := new nat[n](_ => 0);
    for i := 0 to |data|
      invariant bins[..] == Tally(data[..i], lo, hi, n)
    {
      assert data[..i + 1][..i] == data[..i];
      match BinIndex(data[i], lo, hi, n)
      case None =>
      case Some(b) =>
        bins[b] := bins[b] + 1;
    }
    assert data[..|data|] == data;
    counts := bins[..];
  }

  /** Labels are kept as the numeric ends of each range; the strings are not modelled. */
  datatype Histogram = Histogram(labels: seq<(real, real)>, counts: seq<nat>)

  /** `createHistogramBins` (chart-manager copy): empty input gives empty labels and counts. */
  method CreateHistogramBins(data: seq<int>, numBins: nat) returns (h: Histogram)
    ensures |data| == 0 ==> h == Histogram([], [])
    ensures |data| > 0 ==> |h.labels| == numBins && |h.counts| == numBins
    ensures |data| > 0 ==> forall i :: 0 <= i < numBins ==> h.labels[i] == BinRange(MinOf(data), MaxOf(data), numBins, i)
    ensures |data| > 0 ==> h.counts == Tally(data, MinOf(data), MaxOf(data), numBins)
  {
    if |data| == 0 {
      return Histogram([], []);
    }
    h := Bin(data, numBins);
  }

  /** The binning both copies of `createHistogramBins` share, on non-empty data. */
  method Bin(data: seq<int>, numBins: nat) returns (h: Histogram)
    requires |data| > 0
    ensures |h.labels| == numBins
    ensures forall i :: 0 <= i < numBins ==> h.labels[i] == BinRange(MinOf(data), MaxOf(data), numBins, i)
    ensures h.counts == Tally(data, MinOf(data), MaxOf(data), numBins)
  {
    var lo, hi := MinOf(data), MaxOf(data);
    var labels := BinLabels(lo, hi, numBins);
    var counts := CountBins(data, lo, hi, numBins);
    h := Histogram(labels, counts);
  }

  /** The sum of the counts is the number of values unless they are all equal. */
  lemma HistogramTotal(data: seq<int>, numBins: nat)
    requires |data| > 0 && numBins > 0
    ensures MinOf(data) < MaxOf(data) ==> Sum(Tally(data, MinOf(data), MaxOf(data), numBins)) == |data|
    ensures MinOf(data) == MaxOf(data) ==> Tally(data, MinOf(data), MaxOf(data), numBins) == seq(numBins, _ => 0)
  {
    if MinOf(data) < MaxOf(data) {
      TallyTotal(data, MinOf(data), MaxOf(data), numBins);
    } else {
      TallyAllEqual(data, MinOf(data), numBins);
    }
  }

  /** Keys and values of a counting object, in property-creation order. */
  datatype CategoryCounts = CategoryCounts(labels: seq<string>, counts: seq<nat>)

  function ValuesAt(order: seq<string>, m: map<string, nat>): (r: seq<nat>)
    requires forall k :: k in order ==> k in m
    ensures |r| == |order| && forall j :: 0 <= j < |order| ==> r[j] == m[order[j]]
  {
    seq(|order|, j requires 0 <= j < |order| => m[order[j]])
  }

  /** The state of the counting loop after the keys `prefix`: `order` lists each key seen
      once, in order of first appearance, and `m` maps it to its number of occurrences. */
  ghost predicate Counted(prefix: seq<string>, order: seq<string>, m: map<string, nat>) {
    && Distinct(order)
    && (forall k :: k in order <==> k in m)
    && (forall k :: k in order <==> k in prefix)
    && (forall k :: k in m ==> m[k] == multiset(prefix)[k])
    && Sum(ValuesAt(order, m)) == |prefix|
  }

  /** Bumping a key already seen. */
  lemma CountExisting(prefix: seq<string>, order: seq<string>, m: map<string, nat>, k: string)
    requires Counted(prefix, order, m) && k in m
    ensures Counted(prefix + [k], order, m[k := m[k] + 1])
  {
    var j :| 0 <= j < |order| && order[j] == k;
    var before := ValuesAt(order, m);
    forall j' | 0 <= j' < |order| && j' != j
      ensures order[j'] != k
    {
      DistinctAt(order, j, j');
    }
    assert ValuesAt(order, m[k := m[k] + 1]) == before[j := before[j] + 1];
    SumIncrement(before, j);
    assert multiset(prefix + [k]) == multiset(prefix) + multiset{k};
  }

  /** Creating a key seen for the first time, with count one. */
  lemma CountNew(prefix: seq<string>, order: seq<string>, m: map<string, nat>, k: string)
    requires Counted(prefix, order, m) && k !in m
    ensures Counted(prefix + [k], order + [k], m[k := 1])
  {
    var before := ValuesAt(order, m);
    assert ValuesAt(order + [k], m[k := 1]) == before + [1];
    SumAppend(before, 1);
    DistinctSnoc(order, k);
    assert multiset(prefix + [k]) == multiset(prefix) + multiset{k};
    assert k !in prefix;
  }

  /** `counts[k] = (counts[k] || 0) + 1` for each key: one label per distinct key, in
      order of first appearance, each with its number of occurrences. */
  method CountByKey(keys: seq<string>) returns (r: CategoryCounts)
    ensures |r.labels| == |r.counts|
    ensures Distinct(r.labels)
    ensures forall k :: k in r.labels <==> k in keys
    ensures forall j :: 0 <= j < |r.labels| ==> r.counts[j] == multiset(keys)[r.labels[j]]
    ensures Sum(r.counts) == |keys|
  {
    var testCounts: map<string, nat> := map[];
    var order: seq<string> := [];
    for i := 0 to |keys|
      invariant Counted(keys[..i], order, testCounts)
    {
      var k := keys[i];
      assert keys[..i + 1] == keys[..i] + [k];
      if k in testCounts {
        CountExisting(keys[..i], order, testCounts, k);
        testCounts := testCounts[k := testCounts[k] + 1];
      } else {
        CountNew(keys[..i], order, testCounts, k);
        testCounts := testCounts[k := 1];
        order := order + [k];
      }
    }
    assert keys[..|keys|] == keys;
    r := CategoryCounts(order, ValuesAt(order, testCounts));
    assert forall j :: 0 <= j < |order| ==> order[j] in order;
  }

  /** `replace('_', ' ')` with a string pattern: only the first underscore is replaced. */
  function ReplaceFirstUnderscore(s: string): (r: string)
    ensures |r| == |s|
  {
    if s == [] then []
    else if s[0] == '_' then " " + s[1..]
    else [s[0]] + ReplaceFirstUnderscore(s[1..])
  }

  /** Position `i` becomes a space exactly when it holds the first underscore. */
  lemma {:induction false} ReplaceFirstAt(s: string, i: int)
    requires 0 <= i < |s|
    ensures ReplaceFirstUnderscore(s)[i] == if s[i] == '_' && '_' !in s[..i] then ' ' else s[i]
  {
    if i > 0 {
      assert s[i] == s[1..][i - 1];
      if s[0] == '_' {
        assert s[..i][0] == '_';
      } else {
        assert s[..i] == [s[0]] + s[1..][..i - 1];
        ReplaceFirstAt(s[1..], i - 1);
      }
    }
  }

  /** `toUpperCase` on ASCII letters; every other character is kept. */
  function UpperChar(c: char): char {
    if 'a' <= c <= 'z' then (c as int - 32) as char else c
  }

  function ToUpper(s: string): (r: string)
    ensures |r| == |s| && forall i :: 0 <= i < |s| ==> r[i] == UpperChar(s[i])
  {
    seq(|s|, i requires 0 <= i < |s| => UpperChar(s[i]))
  }

  /** The category name a test type is counted under: as long as the key, with no
      lower-case ASCII letter left. */
  function DisplayName(testType: string): (r: string)
    ensures |r| == |testType|
    ensures forall i :: 0 <= i < |r| ==> !('a' <= r[i] <= 'z')
  {
    ToUpper(ReplaceFirstUnderscore(testType))
  }

  /** The five test keys keep distinct display names, so for them counting by display
      name merges nothing. */
  lemma DisplayNamesDistinct(t1: Scoring.TestType, t2: Scoring.TestType)
    requires t1 != t2
    ensures DisplayName(Scoring.Key(t1)) != DisplayName(Scoring.Key(t2))
  {
    var a, b := Scoring.Key(t1), Scoring.Key(t2);
    if |a| == |b| {
      assert {a, b} == {"situps", "sprint"};
      ReplaceFirstAt(a, 1);
      ReplaceFirstAt(b, 1);
      assert DisplayName(a)[1] != DisplayName(b)[1];
    }
  }

  /** The names under which the assessments are counted, one per assessment. */
  function TestKeys(assessments: seq<Store.Assessment>, name: string -> string): (r: seq<string>)
    ensures |r| == |assessments| && forall i :: 0 <= i < |assessments| ==> r[i] == name(assessments[i].testType)
  {
    seq(|assessments|, i requires 0 <= i < |assessments| => name(assessments[i].testType))
  }

  /** Count the assessments per test name: one label for each name that occurs, in order of
      first occurrence, each with its number of assessments. */
  method CountTestTypes(assessments: seq<Store.Assessment>, name: string -> string) returns (r: CategoryCounts)
    ensures Distinct(r.labels) && |r.labels| == |r.counts|
    ensures forall k :: k in r.labels <==> exists i :: 0 <= i < |assessments| && name(assessments[i].testType) == k
    ensures forall j :: 0 <= j < |r.labels| ==> r.counts[j] == multiset(TestKeys(assessments, name))[r.labels[j]]
    ensures Sum(r.counts) == |assessments|
  {
    var names := TestKeys(assessments, name);
    forall k | k in names
      ensures exists i :: 0 <= i < |assessments| && name(assessments[i].testType) == k
    {
      var i :| 0 <= i < |names| && names[i] == k;
      assert name(assessments[i].testType) == k;
    }
    forall k | exists i :: 0 <= i < |assessments| && name(assessments[i].testType) == k
      ensures k in names
    {
      var i :| 0 <= i < |assessments| && name(assessments[i].testType) == k;
      assert names[i] == k;
    }
    r := CountByKey(names);
  }

  /** `createTestCategoryChart`'s counts: keyed by display name, so test types with the
      same display name share one count. */
  method CreateTestCategoryChart(assessments: seq<Store.Assessment>) returns (r: CategoryCounts)
    ensures Distinct(r.labels) && |r.labels| == |r.counts|
    ensures forall k :: k in r.labels <==> exists i :: 0 <= i < |assessments| && DisplayName(assessments[i].testType) == k
    ensures forall j :: 0 <= j < |r.labels| ==> r.counts[j] == multiset(TestKeys(assessments, DisplayName))[r.labels[j]]
    ensures Sum(r.counts) == |assessments|
  {
    r := CountTestTypes(assessments, DisplayName);
  }
}
