/**
 * Day 3 (03/03.py): count the trees hit on the slope "right 3, down 1"
 * over a map that repeats to the right.
 */
module Toboggan {
  import opened Base
  import Py

  /** `parse_line`: each character of the stripped line, True exactly for '#'. */
  function ParseLine(line: string): (row: seq<bool>)
    ensures |row| == |Py.RStrip(line)|
    ensures forall i :: 0 <= i < |row| ==> (row[i] <==> Py.RStrip(line)[i] == '#')
  {
    var s := Py.RStrip(line);
    seq(|s|, i requires 0 <= i < |s| => s[i] == '#')
  }

  predicate Rectangular(trees: seq<seq<bool>>, width: nat) {
    forall r :: 0 <= r < |trees| ==> |trees[r]| == width
  }

  /** The hits on rows 1 .. n-1: row r is looked at in column `3*r mod width`. */
  function HitsBelow(trees: seq<seq<bool>>, width: nat, n: nat): nat
    requires width > 0 && n <= |trees| && Rectangular(trees, width)
  {
    if n <= 1 then 0
    else HitsBelow(trees, width, n - 1) + (if trees[n - 1][3 * (n - 1) % width] then 1 else 0)
  }

  /** `count_trees`: an IndexError on an empty map, an AssertionError on ragged rows, and a
   * ZeroDivisionError when rows of width 0 have to be looked at. */
  function CountTrees(trees: seq<seq<bool>>): (r: Result<nat>)
    ensures r.Ok? <==> |trees| > 0 && Rectangular(trees, |trees[0]|) && (|trees[0]| > 0 || |trees| == 1)
  {
    if |trees| == 0 then Err("IndexError")
    else
      var width := |trees[0]|;
      if !Rectangular(trees, width) then Err("AssertionError")
      else if |trees| == 1 then Ok(0)
      else if width == 0 then Err("ZeroDivisionError")
      else Ok(HitsBelow(trees, width, |trees|))
  }

  /** The rows, other than row 0, whose slope column holds a tree. */
  function TreeRows(trees: seq<seq<bool>>, width: nat): set<nat>
    requires width > 0 && Rectangular(trees, width)
  {
    set r: nat | 1 <= r < |trees| && trees[r][3 * r % width]
  }

  /** The count is the number of rows 1 .. len-1 whose column `3*r mod width` holds a tree. */
  lemma {:induction false} HitsBelowCountsRows(trees: seq<seq<bool>>, width: nat, n: nat)
    requires width > 0 && n <= |trees| && Rectangular(trees, width)
    ensures HitsBelow(trees, width, n) == |set r: nat | 1 <= r < n && trees[r][3 * r % width]|
  {
    var s := set r: nat | 1 <= r < n && trees[r][3 * r % width];
    if n <= 1 {
      assert s == {};
    } else {
      HitsBelowCountsRows(trees, width, n - 1);
      var s0 := set r: nat | 1 <= r < n - 1 && trees[r][3 * r % width];
      if trees[n - 1][3 * (n - 1) % width] {
        assert s == s0 + {n - 1};
      } else {
        assert s == s0;
      }
    }
  }

  lemma CountIsTreeRows(trees: seq<seq<bool>>)
    requires |trees| > 1 && |trees[0]| > 0 && CountTrees(trees).Ok?
    ensures CountTrees(trees).value == |TreeRows(trees, |trees[0]|)|
  {
    HitsBelowCountsRows(trees, |trees[0]|, |trees|);
  }

  /** At most one tree per row below the first. */
  lemma {:induction false} HitsBelowBound(trees: seq<seq<bool>>, width: nat, n: nat)
    requires width > 0 && n <= |trees| && Rectangular(trees, width)
    ensures HitsBelow(trees, width, n) <= if n == 0 then 0 else n - 1
  {
    if n > 1 {
      HitsBelowBound(trees, width, n - 1);
    }
  }

  lemma CountBound(trees: seq<seq<bool>>)
    requires CountTrees(trees).Ok?
    ensures CountTrees(trees).value <= |trees| - 1
  {
    if |trees| > 1 {
      HitsBelowBound(trees, |trees[0]|, |trees|);
    }
  }

  /** Only rows 1 .. n-1 are read: row 0 may be replaced by any row of the same width. */
  lemma {:induction false} HitsBelowIgnoresRowZero(trees: seq<seq<bool>>, row0: seq<bool>, width: nat, n: nat)
    requires width > 0 && n <= |trees| && Rectangular(trees, width) && |trees| > 0 && |row0| == width
    ensures HitsBelow(trees[0 := row0], width, n) == HitsBelow(trees, width, n)
  {
    if n > 1 {
      HitsBelowIgnoresRowZero(trees, row0, width, n - 1);
    }
  }

  lemma RowZeroNeverCounts(trees: seq<seq<bool>>, row0: seq<bool>)
    requires CountTrees(trees).Ok? && |row0| == |trees[0]|
    ensures CountTrees(trees[0 := row0]) == CountTrees(trees)
  {
    var t := trees[0 := row0];
    assert Rectangular(t, |t[0]|);
    if |trees| > 1 {
      HitsBelowIgnoresRowZero(trees, row0, |trees[0]|, |trees|);
    }
  }

  /** The map ".#", "##", "#." is hit at row 1, column 1 and row 2, column 0. */
  lemma SmallMap()
    ensures CountTrees([[false, true], [true, true], [true, false]]) == Ok(2)
  {
  }
}
