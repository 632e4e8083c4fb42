/**
 * Day 9 (09/09.py): a number is valid when two different values among the
 * previous `preamble_size` numbers add up to it; find the first invalid one
 * while the window slides along.
 */
module XmasCipher {
  import opened Base
  import Py

  // ---------------------------------------------------------------- parsing

  function IntOrErr(line: string): Result<int> {
    match Py.IntOfLine(line)
    case None => Err("ValueError")
    case Some(n) => Ok(n)
  }

  /** `int()` of each line, computed up front: `int` has no effects, so only the order of the errors matters. */
  function LineValues(lines: seq<string>): (rs: seq<Result<int>>)
    ensures |rs| == |lines| && forall i :: 0 <= i < |lines| ==> rs[i] == IntOrErr(lines[i])
  {
    seq(|lines|, i requires 0 <= i < |lines| => IntOrErr(lines[i]))
  }

  /**
   * The preamble generator: `next(f)` then `int()`, line by line, given
   * each line's `int()`. A bad line raises ValueError as soon as it is
   * reached; running out of lines first stops the generator, which Python
   * turns into a RuntimeError.
   */
  function ReadPreamble(rs: seq<Result<int>>, k: nat): (r: Result<seq<int>>)
    ensures r.Ok? ==> |r.value| == k <= |rs|
  {
    if k == 0 then Ok([])
    else if rs == [] then Err("RuntimeError")
    else
      var v :- rs[0];
      var rest :- ReadPreamble(rs[1..], k - 1);
      Ok([v] + rest)
  }

  /** `parse_input`: the first `preambleSize` lines are the preamble, every other line a number to check. */
  function ParseInput(lines: seq<string>, preambleSize: nat): (r: Result<(seq<int>, seq<int>)>)
    ensures r.Ok? ==> |r.value.0| == preambleSize && |r.value.0| + |r.value.1| == |lines|
  {
    var preamble :- ReadPreamble(LineValues(lines), preambleSize);
    var sums :- MapResult(IntOrErr, lines[preambleSize..]);
    Ok((preamble, sums))
  }

  /** The first `k` results, or all of fewer, are integers. */
  predicate AllGood(rs: seq<Result<int>>, k: nat) {
    forall i :: 0 <= i < k && i < |rs| ==> rs[i].Ok?
  }

  /** Result `j` is the first that is not an integer. */
  predicate FirstBad(rs: seq<Result<int>>, j: int) {
    0 <= j < |rs| && rs[j].Err? && forall i :: 0 <= i < j ==> rs[i].Ok?
  }

  lemma AllGoodTail(rs: seq<Result<int>>, k: nat)
    requires rs != [] && k > 0
    ensures AllGood(rs, k) <==> rs[0].Ok? && AllGood(rs[1..], k - 1)
  {
    var rest := rs[1..];
    if rs[0].Ok? && AllGood(rest, k - 1) {
      forall i | 0 <= i < k && i < |rs| ensures rs[i].Ok? {
        if i > 0 {
          assert rs[i] == rest[i - 1];
        }
      }
    }
  }

  /** The preamble is read exactly when there are `k` results and all are integers, and it holds their values. */
  lemma {:induction false} ReadPreambleOk(rs: seq<Result<int>>, k: nat)
    ensures ReadPreamble(rs, k).Ok? <==> k <= |rs| && AllGood(rs, k)
    ensures ReadPreamble(rs, k).Ok? ==> forall i :: 0 <= i < k ==> rs[i] == Ok(ReadPreamble(rs, k).value[i])
  {
    if k > 0 && rs != [] {
      var rest := rs[1..];
      ReadPreambleOk(rest, k - 1);
      AllGoodTail(rs, k);
      if ReadPreamble(rs, k).Ok? {
        var v := ReadPreamble(rs, k).value;
        assert v == [rs[0].value] + ReadPreamble(rest, k - 1).value;
        forall i | 0 <= i < k ensures rs[i] == Ok(v[i]) {
          if i > 0 {
            assert rs[i] == rest[i - 1];
          }
        }
      }
    }
  }

  /** Running out of results with every one good is the RuntimeError; a bad one among the first `k` raises its error. */
  lemma {:induction false} ReadPreambleErr(rs: seq<Result<int>>, k: nat)
    ensures |rs| < k && AllGood(rs, k) ==> ReadPreamble(rs, k) == Err("RuntimeError")
    ensures !AllGood(rs, k) ==> exists j :: 0 <= j < k && FirstBad(rs, j) && ReadPreamble(rs, k) == Err(rs[j].msg)
  {
    if k > 0 && rs != [] {
      var rest := rs[1..];
      ReadPreambleErr(rest, k - 1);
      AllGoodTail(rs, k);
      if !AllGood(rs, k) && rs[0].Ok? {
        var j :| 0 <= j < k - 1 && FirstBad(rest, j) && ReadPreamble(rest, k - 1) == Err(rest[j].msg);
        assert rs[j + 1] == rest[j];
        forall i | 0 <= i < j + 1 ensures rs[i].Ok? {
          if i > 0 {
            assert rs[i] == rest[i - 1];
          }
        }
        assert FirstBad(rs, j + 1);
      }
      if !AllGood(rs, k) && rs[0].Err? {
        assert FirstBad(rs, 0);
      }
    }
  }

  /**
   * For a whole file: a bad line before the end of the preamble raises
   * ValueError even when the file is too short, and RuntimeError comes only
   * from a short file whose every line holds an integer.
   */
  lemma PreambleValueError(lines: seq<string>, k: nat)
    ensures (exists j :: 0 <= j < k && j < |lines| && IntOrErr(lines[j]).Err?) ==> ParseInput(lines, k) == Err("ValueError")
  {
    var rs := LineValues(lines);
    ReadPreambleErr(rs, k);
    if j0 :| 0 <= j0 < k && j0 < |lines| && IntOrErr(lines[j0]).Err? {
      assert rs[j0].Err?;
      var j :| 0 <= j < k && FirstBad(rs, j) && ReadPreamble(rs, k) == Err(rs[j].msg);
      assert rs[j] == IntOrErr(lines[j]);
    }
  }

  lemma PreambleRuntimeError(lines: seq<string>, k: nat)
    ensures ParseInput(lines, k) == Err("RuntimeError") <==>
      |lines| < k && forall j :: 0 <= j < |lines| ==> IntOrErr(lines[j]).Ok?
  {
    var rs := LineValues(lines);
    ReadPreambleErr(rs, k);
    ReadPreambleOk(rs, k);
    PreambleValueError(lines, k);
    if k <= |lines| {
      MapResultErrors(lines[k..]);
    }
    if AllGood(rs, k) {
      assert forall j :: 0 <= j < k && j < |lines| ==> IntOrErr(lines[j]).Ok?;
    }
  }

  /** Every error of `int()` on a line is a ValueError. */
  lemma {:induction false} MapResultErrors(lines: seq<string>)
    ensures MapResult(IntOrErr, lines).Err? ==> MapResult(IntOrErr, lines) == Err("ValueError")
  {
    if lines != [] {
      MapResultErrors(lines[1..]);
    }
  }

  /** A bad line among the preamble raises ValueError although the file is too short for the preamble. */
  lemma BadLineBeforeEnd(lines: seq<string>)
    requires lines == ["x"]
    ensures ParseInput(lines, 5) == Err("ValueError")
  {
    assert Py.ParseInt(Py.Strip("x")) == None by {
      assert Py.Strip("x") == "x";
    }
    assert IntOrErr(lines[0]).Err?;
    PreambleValueError(lines, 5);
  }

  // ---------------------------------------------------------------- is_sum

  /** Some later entry differs from `a` and adds up with it to `n`. */
  predicate PairsWith(a: int, rest: seq<int>, n: int) {
    rest != [] && ((a != rest[0] && a + rest[0] == n) || PairsWith(a, rest[1..], n))
  }

  /** `is_sum(preamble, n)`: `itertools.combinations(preamble, 2)` in order, keeping pairs of different values. */
  predicate IsSum(p: seq<int>, n: int) {
    p != [] && (PairsWith(p[0], p[1..], n) || IsSum(p[1..], n))
  }

  lemma {:induction false} PairsWithIff(a: int, rest: seq<int>, n: int)
    ensures PairsWith(a, rest, n) <==> exists j :: 0 <= j < |rest| && a != rest[j] && a + rest[j] == n
  {
    if rest != [] {
      PairsWithIff(a, rest[1..], n);
      if PairsWith(a, rest[1..], n) {
        var j :| 0 <= j < |rest[1..]| && a != rest[1..][j] && a + rest[1..][j] == n;
        assert rest[j + 1] == rest[1..][j];
      }
      if j :| 0 <= j < |rest| && a != rest[j] && a + rest[j] == n {
        if j > 0 {
          assert rest[1..][j - 1] == rest[j];
        }
      }
    }
  }

  /** `is_sum` holds exactly when two entries at different positions, with different values, add up to `n`. */
  lemma {:induction false} IsSumIff(p: seq<int>, n: int)
    ensures IsSum(p, n) <==> exists i, j :: 0 <= i < j < |p| && p[i] != p[j] && p[i] + p[j] == n
  {
    if p != [] {
      IsSumIff(p[1..], n);
      PairsWithIff(p[0], p[1..], n);
      if IsSum(p, n) {
        if PairsWith(p[0], p[1..], n) {
          var j :| 0 <= j < |p[1..]| && p[0] != p[1..][j] && p[0] + p[1..][j] == n;
          assert p[0] != p[j + 1] && p[0] + p[j + 1] == n;
        } else {
          var i, j :| 0 <= i < j < |p[1..]| && p[1..][i] != p[1..][j] && p[1..][i] + p[1..][j] == n;
          assert p[i + 1] != p[j + 1] && p[i + 1] + p[j + 1] == n;
        }
      }
      if i, j :| 0 <= i < j < |p| && p[i] != p[j] && p[i] + p[j] == n {
        if i == 0 {
          assert p[1..][j - 1] == p[j];
        } else {
          assert p[1..][i - 1] == p[i] && p[1..][j - 1] == p[j];
        }
      }
    }
  }

  /** Fewer than two entries never make a sum. */
  lemma ShortWindowNeverSums(p: seq<int>, n: int)
    requires |p| < 2
    ensures !IsSum(p, n)
  {
  }

  /** Two equal values are never combined: a window of copies of one value makes no sum. */
  lemma EqualWindowNeverSums(p: seq<int>, n: int)
    requires forall i :: 0 <= i < |p| ==> p[i] == p[0]
    ensures !IsSum(p, n)
  {
    IsSumIff(p, n);
  }

  // ---------------------------------------------------------------- the sliding window

  /** The search on values: the first number that is not a sum of its window. */
  function FirstInvalid(window: seq<int>, sums: seq<int>): Option<int>
    decreases |sums|
  {
    if sums == [] then None
    else if !IsSum(window, sums[0]) then Some(sums[0])
    else FirstInvalid(window[1..] + [sums[0]], sums[1..])
  }

  /** The window left behind: after every valid number the oldest entry goes and the number comes in. */
  function WindowAfter(window: seq<int>, sums: seq<int>): (w: seq<int>)
    ensures |w| == |window|
    decreases |sums|
  {
    if sums == [] || !IsSum(window, sums[0]) then window
    else WindowAfter(window[1..] + [sums[0]], sums[1..])
  }

  /** The window of the number at index `k`: the `m` numbers just before it. */
  function WindowOf(all: seq<int>, m: nat, k: nat): seq<int>
    requires k + m <= |all|
  {
    all[k..k + m]
  }

  lemma SlideWindow(window: seq<int>, sums: seq<int>, k: nat)
    requires window != [] && sums != [] && k + |window| <= |window| + |sums| - 1
    ensures var all := window + sums;
            var all' := window[1..] + [sums[0]] + sums[1..];
            WindowOf(all', |window|, k) == WindowOf(all, |window|, k + 1)
  {
    assert window[1..] + [sums[0]] + sums[1..] == (window + sums)[1..];
  }

  /** A result n is the first number that is not a sum of the `|window|` numbers before it. */
  lemma {:induction false} FirstInvalidFound(window: seq<int>, sums: seq<int>, n: int)
    requires FirstInvalid(window, sums) == Some(n)
    ensures exists k :: 0 <= k < |sums| && sums[k] == n && !IsSum(WindowOf(window + sums, |window|, k), n)
                        && forall j :: 0 <= j < k ==> IsSum(WindowOf(window + sums, |window|, j), sums[j])
    decreases |sums|
  {
    var all := window + sums;
    assert WindowOf(all, |window|, 0) == window;
    if IsSum(window, sums[0]) {
      var w' := window[1..] + [sums[0]];
      FirstInvalidFound(w', sums[1..], n);
      var k :| 0 <= k < |sums[1..]| && sums[1..][k] == n && !IsSum(WindowOf(w' + sums[1..], |w'|, k), n)
               && forall j :: 0 <= j < k ==> IsSum(WindowOf(w' + sums[1..], |w'|, j), sums[1..][j]);
      SlideWindow(window, sums, k);
      forall j | 0 <= j < k + 1 ensures IsSum(WindowOf(all, |window|, j), sums[j]) {
        if j > 0 {
          SlideWindow(window, sums, j - 1);
        }
      }
    }
  }

  /** No result exactly when every number is a sum of the `|window|` numbers before it. */
  lemma {:induction false} FirstInvalidNone(window: seq<int>, sums: seq<int>)
    ensures FirstInvalid(window, sums) == None <==>
            forall k :: 0 <= k < |sums| ==> IsSum(WindowOf(window + sums, |window|, k), sums[k])
    decreases |sums|
  {
    var all := window + sums;
    if sums != [] {
      assert WindowOf(all, |window|, 0) == window;
      if IsSum(window, sums[0]) {
        var w' := window[1..] + [sums[0]];
        FirstInvalidNone(w', sums[1..]);
        forall k | 0 <= k < |sums| - 1
          ensures IsSum(WindowOf(w' + sums[1..], |w'|, k), sums[1..][k]) <==> IsSum(WindowOf(all, |window|, k + 1), sums[k + 1])
        {
          SlideWindow(window, sums, k);
        }
        if FirstInvalid(window, sums) == None {
          forall k | 0 <= k < |sums| ensures IsSum(WindowOf(all, |window|, k), sums[k]) {
            if k > 0 {
              assert IsSum(WindowOf(w' + sums[1..], |w'|, k - 1), sums[1..][k - 1]);
            }
          }
        } else {
          var k :| 0 <= k < |sums| - 1 && !IsSum(WindowOf(w' + sums[1..], |w'|, k), sums[1..][k]);
          assert !IsSum(WindowOf(all, |window|, k + 1), sums[k + 1]);
        }
      }
    }
  }

  /** The window after the search is the `|window|` numbers before the first invalid one (or the last
   * `|window|` numbers when all are valid). */
  lemma {:induction false} WindowAfterIsLast(window: seq<int>, sums: seq<int>, k: nat)
    requires k <= |sums| && forall j :: 0 <= j < k ==> IsSum(WindowOf(window + sums, |window|, j), sums[j])
    requires k == |sums| || !IsSum(WindowOf(window + sums, |window|, k), sums[k])
    ensures WindowAfter(window, sums) == WindowOf(window + sums, |window|, k)
    decreases |sums|
  {
    var all := window + sums;
    assert WindowOf(all, |window|, 0) == window;
    if k > 0 {
      var w' := window[1..] + [sums[0]];
      assert IsSum(window, sums[0]);
      forall j | 0 <= j < k - 1 ensures IsSum(WindowOf(w' + sums[1..], |w'|, j), sums[1..][j]) {
        SlideWindow(window, sums, j);
      }
      SlideWindow(window, sums, k - 1);
      WindowAfterIsLast(w', sums[1..], k - 1);
    }
  }

  // ---------------------------------------------------------------- the deque

  /** A `collections.deque` of ints, with the two operations the search uses. */
  class Deque {
    var items: seq<int>

    constructor (items: seq<int>)
      ensures this.items == items
    {
      this.items := items;
    }

    method Append(x: int)
      modifies this
      ensures items == old(items) + [x]
    {
      items := items + [x];
    }

    /** `popleft`; an empty deque raises IndexError and is left as it is. */
    method PopLeft() returns (r: Result<int>)
      modifies this
      ensures old(items) == [] ==> r == Err("IndexError") && items == []
      ensures old(items) != [] ==> r == Ok(old(items)[0]) && items == old(items)[1..]
    {
      if items == [] {
        return Err("IndexError");
      }
      r := Ok(items[0]);
      items := items[1..];
    }
  }

  /** `find_invalid_sum`: the first invalid number, or None (the loop falls off the end); the caller's
   * deque is left holding the final window. */
  method FindInvalidSum(preamble: Deque, sums: seq<int>) returns (r: Option<int>)
    modifies preamble
    ensures r == FirstInvalid(old(preamble.items), sums)
    ensures preamble.items == WindowAfter(old(preamble.items), sums)
  {
    ghost var start := preamble.items;
    for i := 0 to |sums|
      invariant FirstInvalid(start, sums) == FirstInvalid(preamble.items, sums[i..])
      invariant WindowAfter(start, sums) == WindowAfter(preamble.items, sums[i..])
    {
      var n := sums[i];
      assert sums[i..][1..] == sums[i + 1..];
      if !IsSum(preamble.items, n) {
        return Some(n);
      }
      var _ := preamble.PopLeft();
      preamble.Append(n);
    }
    return None;
  }
}
