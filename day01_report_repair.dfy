/**
 * Day 1 (01/01.py): find the `n` expense entries that sum to a target.
 * `itertools.combinations` is modelled by `Combinations`, which lists the
 * n-element picks in the order Python yields them (lexicographic by position).
 */
module ReportRepair {
  import opened Base
  import Py

  /** `[x] + c` for every pick `c` of `cs`, in order. */
  function PrependAll(x: int, cs: seq<seq<int>>): (r: seq<seq<int>>)
    ensures |r| == |cs|
    ensures forall i :: 0 <= i < |cs| ==> r[i] == [x] + cs[i]
  {
    seq(|cs|, i requires 0 <= i < |cs| => [x] + cs[i])
  }

  /** `itertools.combinations(xs, n)`: first every pick using `xs[0]`, then every pick without it. */
  function Combinations(xs: seq<int>, n: nat): seq<seq<int>>
    decreases |xs|
  {
    if n == 0 then [[]]
    else if xs == [] then []
    else PrependAll(xs[0], Combinations(xs[1..], n - 1)) + Combinations(xs[1..], n)
  }

  /** `c` is `xs` with some entries left out: its elements come from strictly increasing positions. */
  predicate IsPick(c: seq<int>, xs: seq<int>)
    decreases |xs|
  {
    if c == [] then true
    else if xs == [] then false
    else (c[0] == xs[0] && IsPick(c[1..], xs[1..])) || IsPick(c, xs[1..])
  }

  /** The loop body at 01/01.py:10-12: the first pick whose sum is `s`. */
  function FirstWithSum(cs: seq<seq<int>>, s: int): (r: Option<seq<int>>)
    ensures r.Some? ==> exists k :: 0 <= k < |cs| && cs[k] == r.value && Py.Sum(cs[k]) == s
                                     && forall j :: 0 <= j < k ==> Py.Sum(cs[j]) != s
    ensures r.None? ==> forall j :: 0 <= j < |cs| ==> Py.Sum(cs[j]) != s
  {
    if cs == [] then None
    else if Py.Sum(cs[0]) == s then Some(cs[0])
    else
      var r := FirstWithSum(cs[1..], s);
      if r.Some? then
        var k :| 0 <= k < |cs[1..]| && cs[1..][k] == r.value && Py.Sum(cs[1..][k]) == s
                 && forall j :: 0 <= j < k ==> Py.Sum(cs[1..][j]) != s;
        assert cs[k + 1] == r.value && forall j :: 0 <= j < k + 1 ==> Py.Sum(cs[j]) != s by {
          forall j | 0 <= j < k + 1 ensures Py.Sum(cs[j]) != s {
            if j > 0 { assert cs[j] == cs[1..][j - 1]; }
          }
        }
        r
      else
        assert forall j :: 1 <= j < |cs| ==> cs[j] == cs[1..][j - 1];
        r
  }

  /** `get_matching_sum(nums, s, n)`. */
  function MatchingSum(nums: seq<int>, s: int, n: nat): Option<seq<int>> {
    FirstWithSum(Combinations(nums, n), s)
  }

  /** Every combination has `n` entries taken from distinct, increasing positions of `xs`. */
  lemma {:induction false} CombinationsArePicks(xs: seq<int>, n: nat)
    ensures forall c :: c in Combinations(xs, n) ==> |c| == n && IsPick(c, xs)
    decreases |xs|
  {
    if n == 0 || xs == [] {
    } else {
      CombinationsArePicks(xs[1..], n - 1);
      CombinationsArePicks(xs[1..], n);
      var with := PrependAll(xs[0], Combinations(xs[1..], n - 1));
      forall c | c in Combinations(xs, n) ensures |c| == n && IsPick(c, xs) {
        if c in with {
          var i :| 0 <= i < |with| && with[i] == c;
          assert c[1..] == Combinations(xs[1..], n - 1)[i];
        } else {
          assert c in Combinations(xs[1..], n);
          assert c != [];
        }
      }
    }
  }

  /** Conversely, every pick of `n` entries is one of the combinations. */
  lemma {:induction false} PicksAreCombinations(xs: seq<int>, c: seq<int>)
    requires IsPick(c, xs)
    ensures c in Combinations(xs, |c|)
    decreases |xs|
  {
    if c != [] {
      CombinationsCons(xs, |c|);
      if c[0] == xs[0] && IsPick(c[1..], xs[1..]) {
        PicksAreCombinations(xs[1..], c[1..]);
        PrependedIn(xs[0], Combinations(xs[1..], |c| - 1), c[1..]);
        assert [xs[0]] + c[1..] == c;
      } else {
        PicksAreCombinations(xs[1..], c);
      }
    }
  }

  lemma CombinationsCons(xs: seq<int>, n: nat)
    requires xs != [] && n > 0
    ensures Combinations(xs, n) == PrependAll(xs[0], Combinations(xs[1..], n - 1)) + Combinations(xs[1..], n)
  {
  }

  lemma PrependedIn(x: int, cs: seq<seq<int>>, t: seq<int>)
    requires t in cs
    ensures [x] + t in PrependAll(x, cs)
  {
    var i :| 0 <= i < |cs| && cs[i] == t;
    assert PrependAll(x, cs)[i] == [x] + t;
  }

  /** A result has `n` entries from distinct positions of `nums` and sums to `s` (01/01.py:10-12). */
  lemma MatchingSumFound(nums: seq<int>, s: int, n: nat)
    requires MatchingSum(nums, s, n).Some?
    ensures var r := MatchingSum(nums, s, n).value;
            |r| == n && IsPick(r, nums) && Py.Sum(r) == s
  {
    CombinationsArePicks(nums, n);
  }

  /** None is returned exactly when no `n` entries from distinct positions sum to `s` (01/01.py:13). */
  lemma MatchingSumNone(nums: seq<int>, s: int, n: nat)
    ensures MatchingSum(nums, s, n).None? <==> forall c :: |c| == n && IsPick(c, nums) ==> Py.Sum(c) != s
  {
    var cs := Combinations(nums, n);
    CombinationsArePicks(nums, n);
    if MatchingSum(nums, s, n).None? {
      forall c | |c| == n && IsPick(c, nums) ensures Py.Sum(c) != s {
        PicksAreCombinations(nums, c);
        var j :| 0 <= j < |cs| && cs[j] == c;
      }
    }
  }

  /** Searching a concatenation finds the answer in the first part when it has one. */
  lemma {:induction false} FirstWithSumAppend(a: seq<seq<int>>, b: seq<seq<int>>, s: int)
    ensures FirstWithSum(a + b, s) == if FirstWithSum(a, s).Some? then FirstWithSum(a, s) else FirstWithSum(b, s)
  {
    if a == [] {
      assert a + b == b;
    } else {
      assert (a + b)[0] == a[0] && (a + b)[1..] == a[1..] + b;
      FirstWithSumAppend(a[1..], b, s);
    }
  }

  /** The one-element picks are the singletons, in order. */
  lemma {:induction false} CombinationsOfOne(xs: seq<int>)
    ensures |Combinations(xs, 1)| == |xs|
    ensures forall i :: 0 <= i < |xs| ==> Combinations(xs, 1)[i] == [xs[i]]
  {
    if xs != [] {
      CombinationsOfOne(xs[1..]);
      assert Combinations(xs[1..], 0) == [[]];
      var p := PrependAll(xs[0], Combinations(xs[1..], 0));
      assert |p| == 1 && p[0] == [xs[0]] + [];
      assert Combinations(xs, 1) == p + Combinations(xs[1..], 1);
    }
  }

  /** Every entry of a pick is an entry of `xs`. */
  lemma {:induction false} PickEntriesFrom(c: seq<int>, xs: seq<int>)
    requires IsPick(c, xs)
    ensures forall x :: x in c ==> x in xs
    decreases |xs|
  {
    if c != [] {
      if c[0] == xs[0] && IsPick(c[1..], xs[1..]) {
        PickEntriesFrom(c[1..], xs[1..]);
        assert c == [c[0]] + c[1..];
      } else {
        PickEntriesFrom(c, xs[1..]);
      }
    }
  }

  lemma SumOfTwo(a: int, b: int)
    ensures Py.Sum([a, b]) == a + b
  {
    assert [a, b][1..] == [b];
    assert [b][1..] == [];
    assert Py.Sum([b]) == b + Py.Sum([]);
  }

  lemma SumOfThree(a: int, b: int, c: int)
    ensures Py.Sum([a, b, c]) == a + b + c
  {
    assert [a, b, c][1..] == [b, c];
    SumOfTwo(b, c);
  }

  /** When every entry is at least `lo`, no pair added to `x` reaches `s` if `x + 2 * lo > s`. */
  lemma PairsAboveBound(x: int, xs: seq<int>, lo: int, s: int)
    requires forall e :: e in xs ==> e >= lo
    requires x + 2 * lo > s
    ensures FirstWithSum(PrependAll(x, Combinations(xs, 2)), s) == None
  {
    var cs := Combinations(xs, 2);
    CombinationsArePicks(xs, 2);
    var head := PrependAll(x, cs);
    forall j | 0 <= j < |head| ensures Py.Sum(head[j]) != s {
      var c := cs[j];
      assert c in cs;
      PickEntriesFrom(c, xs);
      assert c[0] in c && c[1] in c;
      assert c == [c[0], c[1]];
      SumOfThree(x, c[0], c[1]);
      assert head[j] == [x, c[0], c[1]];
    }
  }

  /** The pairs of the sample report that start with 1721, and the first of them summing to 2020. */
  lemma SamplePairsWithFirst()
    ensures FirstWithSum(PrependAll(1721, Combinations([979, 366, 299, 675, 1456], 1)), 2020) == Some([1721, 299])
  {
    var r1 := [979, 366, 299, 675, 1456];
    CombinationsOfOne(r1);
    var head := PrependAll(1721, Combinations(r1, 1));
    assert head[0] == [1721, 979] && head[1] == [1721, 366] && head[2] == [1721, 299];
    SumOfTwo(1721, 979);
    SumOfTwo(1721, 366);
    SumOfTwo(1721, 299);
    assert head[1..][1..] == head[2..];
  }

  /** No triple of the sample report starting with 1721 sums to 2020: the other two entries are each at least 299. */
  lemma SampleTriplesWithFirst()
    ensures FirstWithSum(PrependAll(1721, Combinations([979, 366, 299, 675, 1456], 2)), 2020) == None
  {
    PairsAboveBound(1721, [979, 366, 299, 675, 1456], 299, 2020);
  }

  /** The triples of the sample report starting with 979 and the first of them summing to 2020. */
  lemma SampleTriplesWithSecond()
    ensures FirstWithSum(PrependAll(979, Combinations([366, 299, 675, 1456], 2)), 2020) == Some([979, 366, 675])
  {
    var r2 := [366, 299, 675, 1456];
    var cs := Combinations(r2, 2);
    assert r2[1..] == [299, 675, 1456];
    CombinationsOfOne(r2[1..]);
    assert cs == PrependAll(366, Combinations(r2[1..], 1)) + Combinations(r2[1..], 2);
    assert cs[0] == [366, 299] && cs[1] == [366, 675];
    var head := PrependAll(979, cs);
    assert head[0] == [979, 366, 299] && head[1] == [979, 366, 675];
    SumOfThree(979, 366, 299);
    SumOfThree(979, 366, 675);
  }

  /** The two sample answers checked at 01/01.py:18-26. */
  lemma SampleReport()
    ensures MatchingSum([1721, 979, 366, 299, 675, 1456], 2020, 2) == Some([1721, 299])
    ensures 1721 * 299 == 514579
    ensures MatchingSum([1721, 979, 366, 299, 675, 1456], 2020, 3) == Some([979, 366, 675])
    ensures 979 * 366 * 675 == 241861950
  {
    var nums := [1721, 979, 366, 299, 675, 1456];
    var r1 := [979, 366, 299, 675, 1456];
    var r2 := [366, 299, 675, 1456];
    assert nums[1..] == r1 && r1[1..] == r2;
    SamplePairsWithFirst();
    FirstWithSumAppend(PrependAll(1721, Combinations(r1, 1)), Combinations(r1, 2), 2020);
    SampleTriplesWithFirst();
    SampleTriplesWithSecond();
    FirstWithSumAppend(PrependAll(979, Combinations(r2, 2)), Combinations(r2, 3), 2020);
    FirstWithSumAppend(PrependAll(1721, Combinations(r1, 2)), Combinations(r1, 3), 2020);
  }
}
