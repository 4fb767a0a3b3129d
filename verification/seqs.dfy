/** Sequence operations the JavaScript array built-ins perform: `filter`, a stable `sort`
    with a numeric comparator, `slice(0, end)`, and summation with `reduce`. */
module Seqs {

  /** `s.filter(p)`: the elements satisfying `p`, in their original order. */
  function Filter<T(!new)>(s: seq<T>, p: T -> bool): (r: seq<T>)
    ensures |r| <= |s|
    ensures forall x :: x in r <==> x in s && p(x)
  {
    if s == [] then [] else (if p(s[0]) then [s[0]] else []) + Filter(s[1..], p)
  }

  /** Filtering keeps every passing element as often as it occurs, and drops the rest. */
  lemma {:induction false} FilterMultiset<T(!new)>(s: seq<T>, p: T -> bool, x: T)
    ensures multiset(Filter(s, p))[x] == if p(x) then multiset(s)[x] else 0
  {
    if s != [] {
      assert s == [s[0]] + s[1..];
      FilterMultiset(s[1..], p, x);
    }
  }

  /** Filtering distributes over concatenation. */
  lemma {:induction false} FilterAppend<T(!new)>(a: seq<T>, b: seq<T>, p: T -> bool)
    ensures Filter(a + b, p) == Filter(a, p) + Filter(b, p)
  {
    if a == [] {
      assert a + b == b;
    } else {
      assert (a + b)[1..] == a[1..] + b;
      FilterAppend(a[1..], b, p);
    }
  }

  /** Filtering a sequence extended by one element. */
  lemma FilterSnoc<T(!new)>(s: seq<T>, x: T, p: T -> bool)
    ensures Filter(s + [x], p) == Filter(s, p) + (if p(x) then [x] else [])
  {
    FilterAppend(s, [x], p);
  }

  /** Filtering twice is filtering once by the conjunction. */
  lemma {:induction false} FilterFilter<T(!new)>(s: seq<T>, p: T -> bool, q: T -> bool, pq: T -> bool)
    requires forall x :: pq(x) == (p(x) && q(x))
    ensures Filter(Filter(s, p), q) == Filter(s, pq)
  {
    if s != [] {
      FilterFilter(s[1..], p, q, pq);
      FilterAppend(if p(s[0]) then [s[0]] else [], Filter(s[1..], p), q);
    }
  }

  /** A filter that keeps everything is the identity. */
  lemma {:induction false} FilterAll<T(!new)>(s: seq<T>, p: T -> bool)
    requires forall x :: x in s ==> p(x)
    ensures Filter(s, p) == s
  {
    if s != [] {
      FilterAll(s[1..], p);
    }
  }

  /** A filter that keeps nothing gives the empty sequence. */
  lemma {:induction false} FilterNone<T(!new)>(s: seq<T>, p: T -> bool)
    requires forall x :: x in s ==> !p(x)
    ensures Filter(s, p) == []
  {
    if s != [] {
      FilterNone(s[1..], p);
    }
  }

  /** No element occurs twice. */
  ghost predicate Distinct<T(!new)>(s: seq<T>) {
    forall x :: multiset(s)[x] <= 1
  }

  /** Distinctness stated on positions. */
  lemma DistinctAt<T(!new)>(s: seq<T>, i: int, j: int)
    requires Distinct(s) && 0 <= i < |s| && 0 <= j < |s| && i != j
    ensures s[i] != s[j]
  {
    var lo, hi := if i < j then i else j, if i < j then j else i;
    assert s == s[..lo] + [s[lo]] + s[lo + 1..hi] + [s[hi]] + s[hi + 1..];
    assert multiset(s)[s[lo]] >= 1 + (if s[hi] == s[lo] then 1 else 0);
  }

  /** Appending an element not yet present keeps the sequence distinct. */
  lemma DistinctSnoc<T(!new)>(s: seq<T>, x: T)
    requires Distinct(s) && x !in s
    ensures Distinct(s + [x])
  {
    assert forall y :: multiset(s + [x])[y] == multiset(s)[y] + (if y == x then 1 else 0);
  }

  /** A distinct sequence has as many elements as its set. */
  lemma {:induction false} DistinctCard<T(!new)>(s: seq<T>)
    requires Distinct(s)
    ensures |set x | x in s| == |s|
  {
    if s != [] {
      var p, x := s[..|s| - 1], s[|s| - 1];
      assert s == p + [x];
      assert multiset(s) == multiset(p) + multiset{x};
      assert Distinct(p) by {
        forall y ensures multiset(p)[y] <= 1 {
          assert multiset(p)[y] <= multiset(s)[y];
        }
      }
      assert multiset(s)[x] == multiset(p)[x] + 1;
      assert x !in multiset(p);
      DistinctCard(p);
      assert (set y | y in s) == (set y | y in p) + {x};
    }
  }

  /** The elements of a sorted sequence are in non-increasing order of `key`. */
  predicate SortedDesc<T>(s: seq<T>, key: T -> int) {
    forall i, j :: 0 <= i < j < |s| ==> key(s[i]) >= key(s[j])
  }

  /** Places `x` in front of the first element whose key is not larger than its own. */
  function Insert<T>(x: T, s: seq<T>, key: T -> int): (r: seq<T>)
    ensures |r| == |s| + 1
    ensures multiset(r) == multiset(s) + multiset{x}
  {
    if s == [] || key(s[0]) <= key(x) then [x] + s
    else
      assert s == [s[0]] + s[1..];
      [s[0]] + Insert(x, s[1..], key)
  }

  /** Inserting below `h` keeps every element at or below `h`'s key. */
  lemma InsertBelow<T>(x: T, s: seq<T>, key: T -> int, h: T)
    requires key(x) < key(h) && forall y :: y in s ==> key(y) <= key(h)
    ensures forall y :: y in Insert(x, s, key) ==> key(y) <= key(h)
  {
    forall y | y in Insert(x, s, key) ensures key(y) <= key(h) {
      assert y in multiset(Insert(x, s, key));
      assert y == x || y in multiset(s);
    }
  }

  /** A head no smaller than every element of a sorted tail gives a sorted sequence. */
  lemma ConsSorted<T>(h: T, rest: seq<T>, key: T -> int)
    requires SortedDesc(rest, key) && forall y :: y in rest ==> key(y) <= key(h)
    ensures SortedDesc([h] + rest, key)
  {
    var r := [h] + rest;
    forall i, j | 0 <= i < j < |r| ensures key(r[i]) >= key(r[j]) {
      if i > 0 {
        assert r[i] == rest[i - 1] && r[j] == rest[j - 1];
      } else {
        assert r[j] in rest;
      }
    }
  }

  lemma {:induction false} InsertSorted<T>(x: T, s: seq<T>, key: T -> int)
    requires SortedDesc(s, key)
    ensures SortedDesc(Insert(x, s, key), key)
  {
    if s == [] || key(s[0]) <= key(x) {
      ConsSorted(x, s, key);
    } else {
      var tail := s[1..];
      InsertSorted(x, tail, key);
      assert forall y :: y in tail ==> key(y) <= key(s[0]) by {
        forall y | y in tail ensures key(y) <= key(s[0]) {
          var i :| 0 <= i < |tail| && tail[i] == y;
          assert s[i + 1] == y;
        }
      }
      InsertBelow(x, tail, key, s[0]);
      ConsSorted(s[0], Insert(x, tail, key), key);
    }
  }

  /** `s.sort((a, b) => key(b) - key(a))`: descending by key, and stable, as ECMAScript
      requires of `Array.prototype.sort`. */
  function SortDesc<T>(s: seq<T>, key: T -> int): (r: seq<T>)
    ensures |r| == |s|
    ensures multiset(r) == multiset(s)
    ensures SortedDesc(r, key)
  {
    if s == [] then []
    else
      assert s == [s[0]] + s[1..];
      InsertSorted(s[0], SortDesc(s[1..], key), key);
      Insert(s[0], SortDesc(s[1..], key), key)
  }

  /** Sorting two elements swaps them exactly when the second has the larger key. */
  lemma SortTwo<T>(x: T, y: T, key: T -> int)
    ensures SortDesc([x, y], key) == if key(y) <= key(x) then [x, y] else [y, x]
  {
    assert [x, y][1..] == [y] && [y][1..] == [];
    assert SortDesc([y], key) == [y];
    assert SortDesc([x, y], key) == Insert(x, [y], key);
    if key(x) < key(y) {
      assert Insert(x, [y], key) == [y] + Insert(x, [], key);
    }
  }

  /** The elements of `s` whose key is `k`, in their order in `s`. */
  function WithKey<T>(s: seq<T>, key: T -> int, k: int): seq<T> {
    if s == [] then [] else (if key(s[0]) == k then [s[0]] else []) + WithKey(s[1..], key, k)
  }

  lemma {:induction false} InsertKeepsTies<T>(x: T, s: seq<T>, key: T -> int, k: int)
    ensures WithKey(Insert(x, s, key), key, k) == (if key(x) == k then [x] else []) + WithKey(s, key, k)
  {
    var r := Insert(x, s, key);
    if s == [] || key(s[0]) <= key(x) {
      assert r[0] == x && r[1..] == s;
    } else {
      var rest := Insert(x, s[1..], key);
      InsertKeepsTies(x, s[1..], key, k);
      assert r[0] == s[0] && r[1..] == rest;
      var head := if key(s[0]) == k then [s[0]] else [];
      assert WithKey(r, key, k) == head + WithKey(rest, key, k);
      assert WithKey(s, key, k) == head + WithKey(s[1..], key, k);
      if key(x) == k {
        assert head == [];
      }
    }
  }

  /** Stability: among elements with equal keys, the sort keeps the original order. */
  lemma {:induction false} SortDescStable<T>(s: seq<T>, key: T -> int, k: int)
    ensures WithKey(SortDesc(s, key), key, k) == WithKey(s, key, k)
  {
    if s != [] {
      SortDescStable(s[1..], key, k);
      InsertKeepsTies(s[0], SortDesc(s[1..], key), key, k);
    }
  }

  lemma {:induction false} WithKeyAppend<T>(a: seq<T>, b: seq<T>, key: T -> int, k: int)
    ensures WithKey(a + b, key, k) == WithKey(a, key, k) + WithKey(b, key, k)
  {
    if a == [] {
      assert a + b == b;
    } else {
      var ab := a + b;
      assert ab[0] == a[0] && ab[1..] == a[1..] + b;
      WithKeyAppend(a[1..], b, key, k);
      assert WithKey(ab, key, k) == (if key(a[0]) == k then [a[0]] else []) + WithKey(a[1..] + b, key, k);
    }
  }

  /** A prefix of a sorted sequence holds its largest elements. */
  lemma SortedSplit<T>(sorted: seq<T>, key: T -> int, n: nat)
    requires n <= |sorted| && SortedDesc(sorted, key)
    ensures forall x, y :: x in sorted[n..] && y in sorted[..n] ==> key(x) <= key(y)
  {
    forall x, y | x in sorted[n..] && y in sorted[..n]
      ensures key(x) <= key(y)
    {
      var i :| n <= i < |sorted| && sorted[i] == x;
      var j :| 0 <= j < n && sorted[j] == y;
    }
  }

  /** A prefix of the sorted sequence holds its largest elements. */
  lemma SortedPrefixIsTop<T>(m: seq<T>, key: T -> int, n: nat)
    requires n <= |m|
    ensures var r := SortDesc(m, key)[..n];
      && multiset(r) <= multiset(m)
      && forall x, y :: x in multiset(m) - multiset(r) && y in r ==> key(x) <= key(y)
  {
    var sorted := SortDesc(m, key);
    var r := sorted[..n];
    assert sorted == r + sorted[n..];
    assert multiset(sorted) == multiset(r) + multiset(sorted[n..]);
    SortedSplit(sorted, key, n);
    forall x | x in multiset(m) - multiset(r)
      ensures x in sorted[n..]
    {
      assert x in multiset(sorted[n..]);
    }
  }

  /** A prefix of the sorted sequence is sorted and holds only elements of the input. */
  lemma SortedPrefixMembers<T>(m: seq<T>, key: T -> int, n: nat)
    requires n <= |m|
    ensures SortedDesc(SortDesc(m, key)[..n], key)
    ensures forall x :: x in SortDesc(m, key)[..n] ==> x in m
  {
    var sorted := SortDesc(m, key);
    forall x | x in sorted[..n] ensures x in m {
      assert x in sorted;
      assert x in multiset(sorted);
    }
  }

  /** A prefix of the stable sort keeps, for each key, a prefix of that key's elements. */
  lemma SortedPrefixStable<T>(m: seq<T>, key: T -> int, n: nat, k: int)
    requires n <= |m|
    ensures WithKey(SortDesc(m, key)[..n], key, k) <= WithKey(m, key, k)
  {
    var sorted := SortDesc(m, key);
    assert sorted == sorted[..n] + sorted[n..];
    WithKeyAppend(sorted[..n], sorted[n..], key, k);
    SortDescStable(m, key, k);
  }

  /** A sequence that is already sorted is left as it is. */
  lemma {:induction false} SortDescSorted<T>(s: seq<T>, key: T -> int)
    requires SortedDesc(s, key)
    ensures SortDesc(s, key) == s
  {
    if s != [] {
      SortDescSorted(s[1..], key);
      assert SortDesc(s[1..], key) == s[1..];
      assert s == [s[0]] + s[1..];
    }
  }

  /** The end position `slice(0, end)` uses: a negative end counts back from the length. */
  function SliceEnd(len: nat, end: int): (r: nat)
    ensures r <= len
    ensures 0 <= end ==> r == if end < len then end else len
    ensures end < 0 ==> r == if len + end < 0 then 0 else len + end
  {
    if end < 0 then (if len + end < 0 then 0 else len + end)
    else if end < len then end else len
  }

  /** `s.slice(0, end)`. */
  function Take<T>(s: seq<T>, end: int): (r: seq<T>)
    ensures |r| == SliceEnd(|s|, end)
    ensures r == s[..|r|]
  {
    s[..SliceEnd(|s|, end)]
  }

  /** `s.reduce((sum, x) => sum + x, 0)` for integers. */
  function Sum(s: seq<int>): int {
    if s == [] then 0 else Sum(s[..|s| - 1]) + s[|s| - 1]
  }

  /** Adding one to one entry adds one to the total. */
  lemma {:induction false} SumIncrement(s: seq<int>, i: int)
    requires 0 <= i < |s|
    ensures Sum(s[i := s[i] + 1]) == Sum(s) + 1
  {
    var t := s[i := s[i] + 1];
    if i < |s| - 1 {
      assert t[..|t| - 1] == s[..|s| - 1][i := s[i] + 1];
      SumIncrement(s[..|s| - 1], i);
    } else {
      assert t[..|t| - 1] == s[..|s| - 1];
    }
  }

  lemma {:induction false} SumAppend(s: seq<int>, x: int)
    ensures Sum(s + [x]) == Sum(s) + x
  {
    assert (s + [x])[..|s|] == s;
  }

  /** The total of `n` zeros. */
  lemma {:induction false} SumZeros(n: nat)
    ensures Sum(seq(n, _ => 0)) == 0
  {
    if n > 0 {
      assert seq(n, _ => 0)[..n - 1] == seq(n - 1, _ => 0);
      SumZeros(n - 1);
    }
  }

  /** Sums of values between two bounds stay between the scaled bounds. */
  lemma {:induction false} SumBounds(s: seq<int>, lo: int, hi: int)
    requires forall i :: 0 <= i < |s| ==> lo <= s[i] <= hi
    ensures |s| * lo <= Sum(s) <= |s| * hi
  {
    if s != [] {
      var p := s[..|s| - 1];
      assert forall i :: 0 <= i < |p| ==> p[i] == s[i];
      SumBounds(p, lo, hi);
      assert |s| * lo == |p| * lo + lo;
      assert |s| * hi == |p| * hi + hi;
    }
  }
}
