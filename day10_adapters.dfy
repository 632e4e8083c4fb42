/**
 * Day 10 (10/10.py): chain every joltage adapter, starting from the 0-jolt
 * outlet and always taking the nearest adapter 1 to 3 jolts higher, then
 * count the differences along the chain.
 */
module Adapters {
  import opened Base
  import Py

  /** `max_joltage_difference`. */
  const MaxDifference := 3

  // ---------------------------------------------------------------- parsing

  function IntOrErr(line: string): Result<int> {
    match Py.IntOfLine(line)
    case None => Err("ValueError")
    case Some(n) => Ok(n)
  }

  /** `parse_input`: the set of the numbers on the lines. */
  function ParseInput(lines: seq<string>): (r: Result<set<int>>)
    ensures r.Ok? ==> forall i :: 0 <= i < |lines| ==> Py.IntOfLine(lines[i]).Some? && Py.IntOfLine(lines[i]).value in r.value
    ensures r.Ok? ==> forall x :: x in r.value ==> exists i :: 0 <= i < |lines| && Py.IntOfLine(lines[i]) == Some(x)
    ensures r.Err? <==> exists i :: 0 <= i < |lines| && Py.IntOfLine(lines[i]).None?
  {
    match MapResult(IntOrErr, lines)
    case Err(m) =>
      LineFails(lines);
      Err(m)
    case Ok(ns) =>
      LinesParse(lines, ns);
      Ok(set i | 0 <= i < |ns| :: ns[i])
  }

  lemma LineFails(lines: seq<string>)
    requires MapResult(IntOrErr, lines).Err?
    ensures exists i :: 0 <= i < |lines| && Py.IntOfLine(lines[i]).None?
  {
    var i :| 0 <= i < |lines| && IntOrErr(lines[i]).Err?;
  }

  lemma LinesParse(lines: seq<string>, ns: seq<int>)
    requires MapResult(IntOrErr, lines) == Ok(ns)
    ensures |ns| == |lines| && forall i :: 0 <= i < |lines| ==> Py.IntOfLine(lines[i]) == Some(ns[i])
  {
    forall i | 0 <= i < |lines| ensures Py.IntOfLine(lines[i]) == Some(ns[i]) {
      LineParses(lines, ns, i);
    }
  }

  lemma LineParses(lines: seq<string>, ns: seq<int>, i: nat)
    requires MapResult(IntOrErr, lines) == Ok(ns) && i < |lines|
    ensures i < |ns| && Py.IntOfLine(lines[i]) == Some(ns[i])
  {
    assert IntOrErr(lines[i]) == Ok(ns[i]);
  }

  // ---------------------------------------------------------------- the next adapter

  /** `find_next_adapter` on values: the nearest adapter 1 to 3 jolts above `joltage`. */
  function NextAdapter(adapters: set<int>, joltage: int): (r: Option<int>)
    ensures r.Some? ==> r.value in adapters && joltage < r.value <= joltage + MaxDifference
    ensures r.Some? ==> forall x :: joltage < x < r.value ==> x !in adapters
    ensures r.None? <==> forall x :: joltage < x <= joltage + MaxDifference ==> x !in adapters
  {
    if joltage + 1 in adapters then Some(joltage + 1)
    else if joltage + 2 in adapters then Some(joltage + 2)
    else if joltage + 3 in adapters then Some(joltage + 3)
    else None
  }

  /** `find_next_adapter`: try the differences 1, 2, 3 in turn; falling off the loop returns None. */
  method FindNextAdapter(adapters: set<int>, joltage: int) returns (r: Option<int>)
    ensures r == NextAdapter(adapters, joltage)
  {
    for difference := 1 to MaxDifference + 1
      invariant forall x :: joltage < x < joltage + difference ==> x !in adapters
    {
      if joltage + difference in adapters {
        return Some(joltage + difference);
      }
    }
    return None;
  }

  // ---------------------------------------------------------------- the chain

  /** The rest of the chain after `joltage`: the adapters in the order they are taken, then the device at
   * last + 3; a missing next adapter makes `adapters.remove(None)` raise KeyError. */
  function ChainFrom(adapters: set<int>, joltage: int): Result<seq<int>>
    decreases |adapters|
  {
    if adapters == {} then Ok([joltage + MaxDifference])
    else match NextAdapter(adapters, joltage)
      case None => Err("KeyError")
      case Some(next) =>
        match ChainFrom(adapters - {next}, next)
        case Err(m) => Err(m)
        case Ok(rest) => Ok([next] + rest)
  }

  /** The adapters still in the set when the loop stops: none on success, the unreachable ones on KeyError. */
  function Leftover(adapters: set<int>, joltage: int): set<int>
    decreases |adapters|
  {
    if adapters == {} then {}
    else match NextAdapter(adapters, joltage)
      case None => adapters
      case Some(next) => Leftover(adapters - {next}, next)
  }

  /** `get_adapter_chain` on values. */
  function Chain(adapters: set<int>): Result<seq<int>> {
    match ChainFrom(adapters, 0)
    case Err(m) => Err(m)
    case Ok(rest) => Ok([0] + rest)
  }

  /** Strictly increasing. */
  predicate Increasing(c: seq<int>) {
    forall i, j :: 0 <= i < j < |c| ==> c[i] < c[j]
  }

  /** Every adapter is above `joltage`, and each one has an adapter, or `joltage` itself, 1 to 3 jolts below. */
  predicate Reachable(adapters: set<int>, joltage: int) {
    forall x :: x in adapters ==> x > joltage && HasBelow(adapters, joltage, x)
  }

  /** `x` has an adapter, or `joltage`, 1 to 3 jolts below it. */
  predicate HasBelow(adapters: set<int>, joltage: int, x: int) {
    (x - MaxDifference <= joltage < x) || exists y :: y in adapters && x - MaxDifference <= y < x
  }

  /** Each step up makes a strictly increasing sequence. */
  lemma {:induction false} StepsIncreasing(c: seq<int>)
    requires forall i :: 0 <= i < |c| - 1 ==> c[i] < c[i + 1]
    ensures Increasing(c)
  {
    if |c| > 1 {
      StepsIncreasing(c[1..]);
      forall j | 1 <= j < |c| ensures c[0] < c[j] {
        assert c[1..][0] == c[1];
        if j > 1 {
          assert c[1..][0] < c[1..][j - 1];
        }
      }
      forall i, j | 0 <= i < j < |c| ensures c[i] < c[j] {
        if i > 0 {
          assert c[1..][i - 1] < c[1..][j - 1];
        }
      }
    }
  }

  /** A finished chain has |adapters| + 2 entries, steps up by 1 to 3 each time and ends 3 above its
   * last adapter. */
  lemma {:induction false} ChainFromSteps(adapters: set<int>, joltage: int)
    requires ChainFrom(adapters, joltage).Ok?
    ensures var c := [joltage] + ChainFrom(adapters, joltage).value;
            && |c| == |adapters| + 2
            && StepsUp(c)
            && c[|c| - 1] == c[|c| - 2] + MaxDifference
    decreases |adapters|
  {
    if adapters != {} {
      var next := NextAdapter(adapters, joltage).value;
      ChainFromSteps(adapters - {next}, next);
      var c' := [next] + ChainFrom(adapters - {next}, next).value;
      assert ChainFrom(adapters, joltage).value == c';
      StepsPrepend(joltage, c');
    }
  }

  /** Each entry is 1 to 3 above the one before it. */
  predicate StepsUp(c: seq<int>) {
    forall i :: 0 <= i < |c| - 1 ==> 1 <= c[i + 1] - c[i] <= MaxDifference
  }

  /** One more entry in front, at most 3 below the old first, keeps the steps and the end. */
  lemma StepsPrepend(j: int, c': seq<int>)
    requires |c'| >= 2 && 1 <= c'[0] - j <= MaxDifference
    requires StepsUp(c')
    requires c'[|c'| - 1] == c'[|c'| - 2] + MaxDifference
    ensures var c := [j] + c';
            && StepsUp(c)
            && c[|c| - 1] == c[|c| - 2] + MaxDifference
  {
    var c := [j] + c';
    forall i | 0 <= i < |c| - 1 ensures 1 <= c[i + 1] - c[i] <= MaxDifference {
      if i > 0 {
        assert c[i] == c'[i - 1] && c[i + 1] == c'[i];
      }
    }
  }

  /** The inner entries of a finished chain are exactly the adapters. */
  lemma {:induction false} ChainFromContents(adapters: set<int>, joltage: int)
    requires ChainFrom(adapters, joltage).Ok?
    ensures var c := ChainFrom(adapters, joltage).value;
            |c| >= 1 && forall x :: x in adapters <==> x in c[..|c| - 1]
    decreases |adapters|
  {
    if adapters != {} {
      var next := NextAdapter(adapters, joltage).value;
      ChainFromContents(adapters - {next}, next);
      var c' := ChainFrom(adapters - {next}, next).value;
      var c := ChainFrom(adapters, joltage).value;
      assert c == [next] + c';
      assert c[..|c| - 1] == [next] + c'[..|c'| - 1];
      forall x ensures x in adapters <==> x in c[..|c| - 1] {
        assert x in adapters <==> x == next || x in adapters - {next};
      }
    }
  }

  /** A finished chain: it starts at `joltage`, steps up by 1 to 3 each time, ends 3 above its last adapter,
   * and its inner entries are exactly the adapters, in increasing order, each once. */
  lemma ChainFromShape(adapters: set<int>, joltage: int)
    requires ChainFrom(adapters, joltage).Ok?
    ensures var c := [joltage] + ChainFrom(adapters, joltage).value;
            && |c| == |adapters| + 2
            && StepsUp(c)
            && c[|c| - 1] == c[|c| - 2] + MaxDifference
            && Increasing(c)
            && (forall x :: x in adapters <==> x in c[1..|c| - 1])
  {
    ChainFromSteps(adapters, joltage);
    ChainFromContents(adapters, joltage);
    var c := [joltage] + ChainFrom(adapters, joltage).value;
    StepsIncreasing(c);
    assert c[1..|c| - 1] == ChainFrom(adapters, joltage).value[..|c| - 2];
  }

  /** `full` is a joltage followed by a finished chain from it: increasing, steps of 1 to 3, the last one 3. */
  predicate SortedChain(full: seq<int>) {
    && |full| >= 2 && Increasing(full)
    && StepsUp(full)
    && full[|full| - 1] == full[|full| - 2] + MaxDifference
  }

  lemma SortedChainTail(full: seq<int>)
    requires SortedChain(full) && |full| > 2
    ensures SortedChain(full[1..])
  {
    var t := full[1..];
    assert forall i :: 0 <= i < |t| ==> t[i] == full[i + 1];
  }

  /** The adapters of a sorted chain without its first adapter are those of its tail. */
  lemma SortedChainRest(adapters: set<int>, full: seq<int>)
    requires SortedChain(full) && |full| > 2 && forall x :: x in adapters <==> x in full[1..|full| - 1]
    ensures forall x :: x in adapters - {full[1]} <==> x in full[2..|full| - 1]
    ensures forall x :: x in adapters ==> full[1] <= x
  {
    assert full[1..|full| - 1] == [full[1]] + full[2..|full| - 1];
    forall x | x in adapters ensures full[1] <= x {
      var k :| 1 <= k < |full| - 1 && full[k] == x;
    }
  }

  /** Conversely, the chain is the only such sequence: the adapters listed in increasing order, each step 1 to 3,
   * followed by the device 3 above the last one. */
  lemma {:induction false} ChainFromSorted(adapters: set<int>, full: seq<int>)
    requires SortedChain(full) && forall x :: x in adapters <==> x in full[1..|full| - 1]
    ensures ChainFrom(adapters, full[0]) == Ok(full[1..])
    decreases |full|, 1
  {
    if |full| == 2 {
      SortedLast(adapters, full);
    } else {
      SortedStep(adapters, full);
    }
  }

  /** `get_adapter_chain` gives the sorted chain from the outlet: the adapters in increasing order, each
   * step 1 to 3, then the device. */
  lemma ChainOfSorted(adapters: set<int>, c: seq<int>)
    requires SortedChain(c) && c[0] == 0 && forall x :: x in adapters <==> x in c[1..|c| - 1]
    ensures Chain(adapters) == Ok(c)
  {
    ChainFromSorted(adapters, c);
    assert [0] + c[1..] == c;
  }

  /** Only the device is left: no adapters remain. */
  lemma SortedLast(adapters: set<int>, full: seq<int>)
    requires SortedChain(full) && |full| == 2 && forall x :: x in adapters <==> x in full[1..|full| - 1]
    ensures ChainFrom(adapters, full[0]) == Ok(full[1..])
  {
    assert (forall y :: y !in adapters) ==> adapters == {};
    assert full[1..] == [full[0] + MaxDifference];
  }

  /** The nearest adapter is the next entry, and the rest of the chain follows from it. */
  lemma {:induction false} SortedStep(adapters: set<int>, full: seq<int>)
    requires SortedChain(full) && |full| > 2 && forall x :: x in adapters <==> x in full[1..|full| - 1]
    ensures ChainFrom(adapters, full[0]) == Ok(full[1..])
    decreases |full|, 0
  {
    var next := full[1];
    SortedNext(adapters, full);
    var full' := full[1..];
    SortedRest(adapters, full);
    ChainFromSorted(adapters - {next}, full');
    assert full[1..] == [next] + full'[1..];
  }

  lemma SortedNext(adapters: set<int>, full: seq<int>)
    requires SortedChain(full) && |full| > 2 && forall x :: x in adapters <==> x in full[1..|full| - 1]
    ensures adapters != {} && NextAdapter(adapters, full[0]) == Some(full[1])
  {
    SortedChainRest(adapters, full);
    assert full[1] in adapters;
  }

  lemma SortedRest(adapters: set<int>, full: seq<int>)
    requires SortedChain(full) && |full| > 2 && forall x :: x in adapters <==> x in full[1..|full| - 1]
    ensures SortedChain(full[1..]) && full[1..][0] == full[1]
    ensures forall x :: x in adapters - {full[1]} <==> x in full[1..][1..|full[1..]| - 1]
  {
    SortedChainRest(adapters, full);
    SortedChainTail(full);
    assert full[1..][1..|full[1..]| - 1] == full[2..|full| - 1];
  }

  /** Taking out an adapter `next` 1 to 3 above `joltage` and below every other one keeps the rest reachable
   * from `next`, and conversely. */
  lemma ReachableStep(adapters: set<int>, joltage: int, next: int)
    requires next in adapters && joltage < next <= joltage + MaxDifference
    requires forall x :: x in adapters ==> next <= x
    ensures Reachable(adapters, joltage) <==> Reachable(adapters - {next}, next)
  {
    var rest := adapters - {next};
    if Reachable(rest, next) {
      forall x | x in adapters ensures x > joltage && HasBelow(adapters, joltage, x) {
        if x == next {
          assert x - MaxDifference <= joltage < x;
        } else {
          assert x in rest && HasBelow(rest, next, x);
          if x - MaxDifference <= next < x {
            assert next in adapters;
          } else {
            var y :| y in rest && x - MaxDifference <= y < x;
            assert y in adapters;
          }
        }
      }
    }
    if Reachable(adapters, joltage) {
      forall x | x in rest ensures x > next && HasBelow(rest, next, x) {
        assert HasBelow(adapters, joltage, x);
        if x - MaxDifference <= joltage < x {
          assert x - MaxDifference <= next < x;
        } else {
          var y :| y in adapters && x - MaxDifference <= y < x;
          if y == next {
            assert x - MaxDifference <= next < x;
          } else {
            assert y in rest;
          }
        }
      }
    }
  }

  /** The chain from `joltage` exists exactly when every adapter is above it and reachable in steps of 1 to 3. */
  lemma {:induction false} ChainFromOkIff(adapters: set<int>, joltage: int)
    ensures ChainFrom(adapters, joltage).Ok? <==> Reachable(adapters, joltage)
    decreases |adapters|
  {
    if adapters != {} {
      var m := Min(adapters);
      match NextAdapter(adapters, joltage)
      case None =>
        assert !HasBelow(adapters, joltage, m);
      case Some(next) =>
        ChainFromOkIff(adapters - {next}, next);
        if Reachable(adapters - {next}, next) {
          assert forall x :: x in adapters ==> x == next || x in adapters - {next};
          ReachableStep(adapters, joltage, next);
        } else if Reachable(adapters, joltage) {
          assert next == m;
          ReachableStep(adapters, joltage, next);
        }
    }
  }

  /** The least element of a non-empty set. */
  ghost function Min(s: set<int>): (m: int)
    requires s != {}
    ensures m in s && forall x :: x in s ==> m <= x
    decreases |s|
  {
    assert (forall y :: y !in s) ==> s == {};
    var x :| x in s;
    if s == {x} then x
    else
      var m := Min(s - {x});
      assert forall y :: y in s ==> y == x || y in s - {x};
      if x < m then x else m
  }

  /** Success leaves the set empty; a KeyError leaves the adapters that were never taken. */
  lemma {:induction false} LeftoverEmpty(adapters: set<int>, joltage: int)
    ensures Leftover(adapters, joltage) == {} <==> ChainFrom(adapters, joltage).Ok?
    ensures Leftover(adapters, joltage) <= adapters
    decreases |adapters|
  {
    if adapters != {} {
      match NextAdapter(adapters, joltage)
      case None =>
      case Some(next) => LeftoverEmpty(adapters - {next}, next);
    }
  }

  /** A mutable `set` of ints, as passed to `get_adapter_chain`, which empties it. */
  class IntSet {
    var elems: set<int>

    constructor (elems: set<int>)
      ensures this.elems == elems
    {
      this.elems := elems;
    }

    /** `set.remove`: a missing element raises KeyError and changes nothing. */
    method Remove(x: int) returns (r: Result<bool>)
      modifies this
      ensures x in old(elems) ==> r == Ok(true) && elems == old(elems) - {x}
      ensures x !in old(elems) ==> r == Err("KeyError") && elems == old(elems)
    {
      if x !in elems {
        return Err("KeyError");
      }
      elems := elems - {x};
      r := Ok(true);
    }
  }

  /** `c` followed by the chain result `r`. */
  function Prefixed(c: seq<int>, r: Result<seq<int>>): Result<seq<int>> {
    match r
    case Err(m) => Err(m)
    case Ok(rest) => Ok(c + rest)
  }

  lemma PrefixedAssoc(c: seq<int>, x: int, r: Result<seq<int>>)
    ensures Prefixed(c, Prefixed([x], r)) == Prefixed(c + [x], r)
  {
    if r.Ok? {
      assert c + ([x] + r.value) == (c + [x]) + r.value;
    }
  }

  /** `get_adapter_chain`: the chain, and the caller's set left holding what was not taken. */
  method GetAdapterChain(adapters: IntSet) returns (r: Result<seq<int>>)
    modifies adapters
    ensures r == Chain(old(adapters.elems))
    ensures adapters.elems == Leftover(old(adapters.elems), 0)
  {
    ghost var start := adapters.elems;
    var chain := [0];
    var joltage := 0;
    while |adapters.elems| > 0
      invariant Chain(start) == Prefixed(chain, ChainFrom(adapters.elems, joltage))
      invariant Leftover(start, 0) == Leftover(adapters.elems, joltage)
      decreases |adapters.elems|
    {
      var next := FindNextAdapter(adapters.elems, joltage);
      if next.None? {
        return Err("KeyError");
      }
      ghost var before := adapters.elems;
      ghost var chainBefore := chain;
      joltage := next.value;
      chain := chain + [joltage];
      var _ := adapters.Remove(joltage);
      PrefixedAssoc(chainBefore, joltage, ChainFrom(adapters.elems, joltage));
    }
    chain := chain + [joltage + MaxDifference];
    r := Ok(chain);
  }

  // ---------------------------------------------------------------- the distribution

  /** `map(operator.sub, chain[1:], chain)`: the step between neighbours. */
  function Diffs(c: seq<int>): (d: seq<int>)
    ensures |d| == if c == [] then 0 else |c| - 1
    ensures forall i :: 0 <= i < |d| ==> d[i] == c[i + 1] - c[i]
  {
    if |c| < 2 then [] else seq(|c| - 1, i requires 0 <= i < |c| - 1 => c[i + 1] - c[i])
  }

  /** `Counter(xs)`: how often each value occurs. */
  function Counter(xs: seq<int>): (m: map<int, nat>)
    ensures forall v :: v in m <==> v in xs
    ensures forall v :: v in m ==> m[v] == multiset(xs)[v]
  {
    map v | v in xs :: multiset(xs)[v]
  }

  /** The steps add up to the rise from the first entry to the last. */
  lemma {:induction false} DiffsSum(c: seq<int>)
    requires c != []
    ensures Py.Sum(Diffs(c)) == c[|c| - 1] - c[0]
  {
    if |c| >= 2 {
      DiffsSum(c[1..]);
      DiffsCons(c, Diffs(c));
    }
  }

  /** The first step, then the steps of the rest. */
  lemma DiffsCons(c: seq<int>, d: seq<int>)
    requires |c| >= 2 && d == Diffs(c)
    ensures d != [] && d[0] == c[1] - c[0] && d[1..] == Diffs(c[1..])
  {
    var t := Diffs(c[1..]);
    assert |d[1..]| == |t|;
    forall i | 0 <= i < |t| ensures d[1..][i] == t[i] {
      assert d[1..][i] == d[i + 1] == c[i + 2] - c[i + 1];
      assert t[i] == c[1..][i + 1] - c[1..][i];
    }
  }

  /** Steps of 1, 2 and 3 add up to `ones + 2·twos + 3·threes`. */
  lemma {:induction false} SumByCounts(xs: seq<int>)
    requires forall i :: 0 <= i < |xs| ==> 1 <= xs[i] <= 3
    ensures Py.Sum(xs) == multiset(xs)[1] + 2 * multiset(xs)[2] + 3 * multiset(xs)[3]
  {
    if xs != [] {
      SumByCounts(xs[1..]);
      assert xs == [xs[0]] + xs[1..];
      assert multiset(xs) == multiset{xs[0]} + multiset(xs[1..]);
    }
  }

  /** `get_difference_distribution` on values. */
  function DifferenceDistribution(adapters: set<int>): Result<map<int, nat>> {
    match Chain(adapters)
    case Err(m) => Err(m)
    case Ok(c) => Ok(Counter(Diffs(c)))
  }

  /** Along a chain from the outlet only the differences 1, 2 and 3 occur, there are |adapters| + 1 of them,
   * and ones + 2·twos + 3·threes is the device's joltage, the last entry, 3 above the last adapter. */
  lemma DistributionTotals(adapters: set<int>)
    requires Chain(adapters).Ok?
    ensures var c := Chain(adapters).value;
            var d := Diffs(c);
            && |d| == |adapters| + 1
            && (forall v :: v in Counter(d) ==> 1 <= v <= MaxDifference)
            && multiset(d)[1] + 2 * multiset(d)[2] + 3 * multiset(d)[3] == c[|c| - 1]
            && c[|c| - 1] == c[|c| - 2] + MaxDifference
  {
    ChainFromSteps(adapters, 0);
    var c := Chain(adapters).value;
    assert c == [0] + ChainFrom(adapters, 0).value;
    var d := Diffs(c);
    DiffsBounded(c, d);
    DiffsSum(c);
    SumByCounts(d);
  }

  /** The steps of a chain are 1 to 3, and so are the values the counter sees. */
  lemma DiffsBounded(c: seq<int>, d: seq<int>)
    requires StepsUp(c) && d == Diffs(c)
    ensures forall i :: 0 <= i < |d| ==> 1 <= d[i] <= MaxDifference
    ensures forall v :: v in Counter(d) ==> 1 <= v <= MaxDifference
  {
    forall i | 0 <= i < |d| ensures 1 <= d[i] <= MaxDifference {
      assert d[i] == c[i + 1] - c[i];
    }
  }

  /** `get_difference_distribution`: the counts (the caller's set is emptied on the way). */
  method GetDifferenceDistribution(adapters: IntSet) returns (r: Result<map<int, nat>>)
    modifies adapters
    ensures r == DifferenceDistribution(old(adapters.elems))
    ensures adapters.elems == Leftover(old(adapters.elems), 0)
  {
    var chain :- GetAdapterChain(adapters);
    r := Ok(Counter(Diffs(chain)));
  }

  // ---------------------------------------------------------------- the sample of 10/10.py:36

  /** The expected chain at 10/10.py:36. */
  function SampleChain(): seq<int> {
    [0, 1, 4, 5, 6, 7, 10, 11, 12, 15, 16, 19, 22]
  }

  /** The adapters the expected chain lists. */
  function SampleAdapters(): set<int> {
    {1, 4, 5, 6, 7, 10, 11, 12, 15, 16, 19}
  }

  lemma SampleSorted(c: seq<int>)
    requires c == SampleChain()
    ensures SortedChain(c)
  {
    SampleStepsUp(c);
    StepsIncreasing(c);
  }

  lemma SampleStepsUp(c: seq<int>)
    requires c == SampleChain()
    ensures StepsUp(c) && forall i :: 0 <= i < |c| - 1 ==> c[i] < c[i + 1]
  {
    assert c[1] - c[0] == 1 && c[2] - c[1] == 3 && c[3] - c[2] == 1 && c[4] - c[3] == 1;
    assert c[5] - c[4] == 1 && c[6] - c[5] == 3 && c[7] - c[6] == 1 && c[8] - c[7] == 1;
    assert c[9] - c[8] == 3 && c[10] - c[9] == 1 && c[11] - c[10] == 3 && c[12] - c[11] == 3;
  }

  lemma SampleContents(a: set<int>, c: seq<int>)
    requires a == SampleAdapters() && c == SampleChain()
    ensures forall x :: x in a <==> x in c[1..|c| - 1]
  {
    assert c[1..|c| - 1] == [1, 4, 5, 6, 7, 10, 11, 12, 15, 16, 19];
  }

  /** The chain of the sample adapters is the expected one (10/10.py:36-37). */
  lemma SampleAdapterChain(a: set<int>, c: seq<int>)
    requires a == SampleAdapters() && c == SampleChain()
    ensures Chain(a) == Ok(c)
  {
    SampleSorted(c);
    SampleContents(a, c);
    ChainOfSorted(a, c);
  }

  /** The sample's twelve steps (10/10.py:29) are all 1 or 3. */
  lemma SampleSteps(c: seq<int>)
    requires c == SampleChain()
    ensures var d := Diffs(c);
            |d| == 12 && forall i :: 0 <= i < |d| ==> d[i] == 1 || d[i] == 3
  {
    var d := Diffs(c);
    assert d[0] == 1 && d[1] == 3 && d[2] == 1 && d[3] == 1 && d[4] == 1 && d[5] == 3;
    assert d[6] == 1 && d[7] == 1 && d[8] == 3 && d[9] == 1 && d[10] == 3 && d[11] == 3;
  }

  /** Counting a sequence of 1s and 3s. */
  lemma {:induction false} CountOnesThrees(d: seq<int>)
    requires forall i :: 0 <= i < |d| ==> d[i] == 1 || d[i] == 3
    ensures forall v :: v in Counter(d) ==> v == 1 || v == 3
    ensures multiset(d)[1] + multiset(d)[3] == |d|
  {
    if d != [] {
      CountOnesThrees(d[1..]);
      assert d == [d[0]] + d[1..];
      assert multiset(d) == multiset{d[0]} + multiset(d[1..]);
    }
  }

  /** Twelve steps of 1 or 3 adding up to 22 are seven 1s and five 3s. */
  lemma CountSampleSteps(d: seq<int>)
    requires |d| == 12 && forall i :: 0 <= i < |d| ==> d[i] == 1 || d[i] == 3
    requires Py.Sum(d) == 22
    ensures Counter(d) == map[1 := 7, 3 := 5]
  {
    CountOnesThrees(d);
    SumByCounts(d);
    var m := Counter(d);
    assert multiset(d)[1] == 7 && multiset(d)[3] == 5;
    assert 1 in d && 3 in d;
    assert m.Keys == {1, 3};
  }

  /** Its differences are seven 1s and five 3s (10/10.py:42). */
  lemma SampleDistribution(a: set<int>, c: seq<int>)
    requires a == SampleAdapters() && c == SampleChain()
    ensures DifferenceDistribution(a) == Ok(map[1 := 7, 3 := 5])
  {
    SampleAdapterChain(a, c);
    SampleSteps(c);
    DiffsSum(c);
    CountSampleSteps(Diffs(c));
  }
}
