/**
 * Day 17 (17/17.py): Conway cubes in four dimensions. A cell stays active
 * with 2 or 3 active neighbours among the 80 around it, an inactive one
 * becomes active with exactly 3, and one cycle looks at every cell of the
 * active cells' bounding box grown by one on each axis.
 */
module Cubes {
  import opened Base
  import Py
  import Arith

  /** A cell `(x, y, z, w)`. */
  type Cell = (int, int, int, int)

  const ActiveMinNeighbors := 2
  const ActiveMaxNeighbors := 3
  const InactiveNeighbors := 3

  // ---------------------------------------------------------------- parse_input

  /** Column `x` of line `y`, once the line is `rstrip()`ped, holds `#`. */
  predicate IsHash(lines: seq<string>, x: int, y: int) {
    0 <= y < |lines| && 0 <= x < |Py.RStrip(lines[y])| && Py.RStrip(lines[y])[x] == '#'
  }

  /** The cells `parse_input` reads from the lines of a file. */
  function Initial(lines: seq<string>): set<Cell> {
    set y, x | 0 <= y < |lines| && 0 <= x < |Py.RStrip(lines[y])| && Py.RStrip(lines[y])[x] == '#' :: (x, y, 0, 0)
  }

  /** Every `#` at column x of line y, and nothing else, becomes the cell (x, y, 0, 0). */
  lemma InitialCells(lines: seq<string>, c: Cell)
    ensures c in Initial(lines) <==> c.2 == 0 && c.3 == 0 && IsHash(lines, c.0, c.1)
  {
    if c.2 == 0 && c.3 == 0 && IsHash(lines, c.0, c.1) {
      assert c == (c.0, c.1, 0, 0);
    }
  }

  method ParseInput(lines: seq<string>) returns (cells: set<Cell>)
    ensures cells == Initial(lines)
  {
    cells := {};
    for y := 0 to |lines|
      invariant forall c :: c in cells <==> c.2 == 0 && c.3 == 0 && IsHash(lines, c.0, c.1) && c.1 < y
    {
      var line := Py.RStrip(lines[y]);
      for x := 0 to |line|
        invariant forall c :: c in cells <==>
          c.2 == 0 && c.3 == 0 && IsHash(lines, c.0, c.1) && (c.1 < y || (c.1 == y && c.0 < x))
      {
        if line[x] == '#' {
          cells := cells + {(x, y, 0, 0)};
        }
      }
    }
    forall c ensures c in cells <==> c in Initial(lines) {
      InitialCells(lines, c);
    }
  }

  // ---------------------------------------------------------------- neighbours

  /** `d` is one of the 80 cells around `c`. */
  predicate Adjacent(c: Cell, d: Cell) {
    d != c && -1 <= d.0 - c.0 <= 1 && -1 <= d.1 - c.1 <= 1 && -1 <= d.2 - c.2 <= 1 && -1 <= d.3 - c.3 <= 1
  }

  /** The active cells around `c`. */
  function Neighbours(cells: set<Cell>, c: Cell): set<Cell> {
    set d | d in cells && Adjacent(c, d)
  }

  /** The rule of a cycle: does `c` end up active? */
  predicate Activates(cells: set<Cell>, c: Cell) {
    var n := |Neighbours(cells, c)|;
    if c in cells then ActiveMinNeighbors <= n <= ActiveMaxNeighbors else n == InactiveNeighbors
  }

  /**
   * The k-th cell, 0 <= k < 81, that `should_activate`'s four loops visit
   * around `c`: each coordinate runs from one below to one above, `w` fastest.
   */
  function Visit(c: Cell, k: int): Cell {
    (c.0 + k / 27 - 1, c.1 + k / 9 % 3 - 1, c.2 + k / 3 % 3 - 1, c.3 + k % 3 - 1)
  }

  /** How many of the first k visited cells, `c` itself skipped, are active. */
  function CountBelow(cells: set<Cell>, c: Cell, k: nat): nat {
    if k == 0 then 0
    else CountBelow(cells, c, k - 1) + (if Visit(c, k - 1) != c && Visit(c, k - 1) in cells then 1 else 0)
  }

  /** The visited cells among the first k, `c` itself skipped. */
  function VisitedBelow(c: Cell, k: nat): set<Cell> {
    if k == 0 then {}
    else VisitedBelow(c, k - 1) + (if Visit(c, k - 1) != c then {Visit(c, k - 1)} else {})
  }

  lemma VisitAt(c: Cell, a: int, b: int, e: int, f: int)
    requires 0 <= a < 3 && 0 <= b < 3 && 0 <= e < 3 && 0 <= f < 3
    ensures Visit(c, 27 * a + 9 * b + 3 * e + f) == (c.0 + a - 1, c.1 + b - 1, c.2 + e - 1, c.3 + f - 1)
  {
    var k := 27 * a + 9 * b + 3 * e + f;
    Arith.DivModUnique(k, 27, a, 9 * b + 3 * e + f);
    Arith.DivModUnique(k, 9, 3 * a + b, 3 * e + f);
    Arith.DivModUnique(3 * a + b, 3, a, b);
    Arith.DivModUnique(k, 3, 9 * a + 3 * b + e, f);
    Arith.DivModUnique(9 * a + 3 * b + e, 3, 3 * a + b, e);
  }

  /** The base-3 digits of a visit index. */
  lemma Digits(k: int) returns (a: int, b: int, e: int, f: int)
    requires 0 <= k < 81
    ensures 0 <= a < 3 && 0 <= b < 3 && 0 <= e < 3 && 0 <= f < 3
    ensures k == 27 * a + 9 * b + 3 * e + f
  {
    a := k / 27;
    var r := k % 27;
    b := r / 9;
    e := r % 9 / 3;
    f := r % 9 % 3;
  }

  /** No cell is visited twice. */
  lemma VisitInjective(c: Cell, j: int, k: int)
    requires 0 <= j < 81 && 0 <= k < 81 && Visit(c, j) == Visit(c, k)
    ensures j == k
  {
    var a, b, e, f := Digits(j);
    var a', b', e', f' := Digits(k);
    VisitAt(c, a, b, e, f);
    VisitAt(c, a', b', e', f');
  }

  lemma {:induction false} VisitedMembers(c: Cell, k: nat, d: Cell)
    ensures d in VisitedBelow(c, k) <==> d != c && exists j :: 0 <= j < k && Visit(c, j) == d
  {
    if k > 0 {
      VisitedMembers(c, k - 1, d);
    }
  }

  /** The loops visit exactly the 80 cells around `c`. */
  lemma VisitedAll(c: Cell, d: Cell)
    ensures d in VisitedBelow(c, 81) <==> Adjacent(c, d)
  {
    VisitedMembers(c, 81, d);
    if d in VisitedBelow(c, 81) {
      var j :| 0 <= j < 81 && Visit(c, j) == d;
      var a, b, e, f := Digits(j);
      VisitAt(c, a, b, e, f);
    }
    if Adjacent(c, d) {
      var a, b, e, f := d.0 - c.0 + 1, d.1 - c.1 + 1, d.2 - c.2 + 1, d.3 - c.3 + 1;
      VisitAt(c, a, b, e, f);
      assert Visit(c, 27 * a + 9 * b + 3 * e + f) == d;
    }
  }

  lemma {:induction false} CountIsCard(cells: set<Cell>, c: Cell, k: nat)
    requires k <= 81
    ensures CountBelow(cells, c, k) == |VisitedBelow(c, k) * cells|
  {
    if k > 0 {
      CountIsCard(cells, c, k - 1);
      var v := Visit(c, k - 1);
      var before := VisitedBelow(c, k - 1) * cells;
      if v != c && v in cells {
        if v in before {
          VisitedMembers(c, k - 1, v);
          var j :| 0 <= j < k - 1 && Visit(c, j) == v;
          VisitInjective(c, j, k - 1);
        }
        assert VisitedBelow(c, k) * cells == before + {v};
      } else {
        assert VisitedBelow(c, k) * cells == before;
      }
    }
  }

  /** `should_activate`'s count, taken over its 81 visits, is the number of active neighbours. */
  lemma CountIsNeighbours(cells: set<Cell>, c: Cell)
    ensures CountBelow(cells, c, 81) == |Neighbours(cells, c)|
  {
    CountIsCard(cells, c, 81);
    forall d ensures d in VisitedBelow(c, 81) * cells <==> d in Neighbours(cells, c) {
      VisitedAll(c, d);
    }
    assert VisitedBelow(c, 81) * cells == Neighbours(cells, c);
  }

  /** The cell at offsets a-1, b-1, e-1, f-1 from `c` is another active cell. */
  predicate Hit(cells: set<Cell>, c: Cell, a: int, b: int, e: int, f: int) {
    var v := (c.0 + a - 1, c.1 + b - 1, c.2 + e - 1, c.3 + f - 1);
    v != c && v in cells
  }

  // What `should_activate`'s loops add to the count: the `ww` loop over its
  // first f steps, the `zz` loop over its first e steps, and so on outwards.

  function CountW(cells: set<Cell>, c: Cell, a: int, b: int, e: int, f: nat): nat {
    if f == 0 then 0 else CountW(cells, c, a, b, e, f - 1) + (if Hit(cells, c, a, b, e, f - 1) then 1 else 0)
  }

  function CountZ(cells: set<Cell>, c: Cell, a: int, b: int, e: nat): nat {
    if e == 0 then 0 else CountZ(cells, c, a, b, e - 1) + CountW(cells, c, a, b, e - 1, 3)
  }

  function CountY(cells: set<Cell>, c: Cell, a: int, b: nat): nat {
    if b == 0 then 0 else CountY(cells, c, a, b - 1) + CountZ(cells, c, a, b - 1, 3)
  }

  function CountX(cells: set<Cell>, c: Cell, a: nat): nat {
    if a == 0 then 0 else CountX(cells, c, a - 1) + CountY(cells, c, a - 1, 3)
  }

  lemma {:induction false} BridgeW(cells: set<Cell>, c: Cell, a: int, b: int, e: int, f: nat)
    requires 0 <= a < 3 && 0 <= b < 3 && 0 <= e < 3 && f <= 3
    ensures CountBelow(cells, c, 27 * a + 9 * b + 3 * e + f) ==
      CountBelow(cells, c, 27 * a + 9 * b + 3 * e) + CountW(cells, c, a, b, e, f)
  {
    if f > 0 {
      BridgeW(cells, c, a, b, e, f - 1);
      VisitAt(c, a, b, e, f - 1);
    }
  }

  lemma {:induction false} BridgeZ(cells: set<Cell>, c: Cell, a: int, b: int, e: nat)
    requires 0 <= a < 3 && 0 <= b < 3 && e <= 3
    ensures CountBelow(cells, c, 27 * a + 9 * b + 3 * e) ==
      CountBelow(cells, c, 27 * a + 9 * b) + CountZ(cells, c, a, b, e)
  {
    if e > 0 {
      BridgeZ(cells, c, a, b, e - 1);
      BridgeW(cells, c, a, b, e - 1, 3);
    }
  }

  lemma {:induction false} BridgeY(cells: set<Cell>, c: Cell, a: int, b: nat)
    requires 0 <= a < 3 && b <= 3
    ensures CountBelow(cells, c, 27 * a + 9 * b) == CountBelow(cells, c, 27 * a) + CountY(cells, c, a, b)
  {
    if b > 0 {
      BridgeY(cells, c, a, b - 1);
      BridgeZ(cells, c, a, b - 1, 3);
    }
  }

  lemma {:induction false} BridgeX(cells: set<Cell>, c: Cell, a: nat)
    requires a <= 3
    ensures CountBelow(cells, c, 27 * a) == CountX(cells, c, a)
  {
    if a > 0 {
      BridgeX(cells, c, a - 1);
      BridgeY(cells, c, a - 1, 3);
    }
  }

  /** The four loops together count the active neighbours. */
  lemma LoopsCountNeighbours(cells: set<Cell>, c: Cell)
    ensures CountX(cells, c, 3) == |Neighbours(cells, c)|
  {
    BridgeX(cells, c, 3);
    CountIsNeighbours(cells, c);
  }

  lemma {:induction false} CountWMonotone(cells: set<Cell>, c: Cell, a: int, b: int, e: int, f: nat)
    requires f <= 3
    ensures CountW(cells, c, a, b, e, f) <= CountW(cells, c, a, b, e, 3)
    decreases 3 - f
  {
    if f < 3 {
      CountWMonotone(cells, c, a, b, e, f + 1);
    }
  }

  lemma {:induction false} CountZMonotone(cells: set<Cell>, c: Cell, a: int, b: int, e: nat)
    requires e <= 3
    ensures CountZ(cells, c, a, b, e) <= CountZ(cells, c, a, b, 3)
    decreases 3 - e
  {
    if e < 3 {
      CountZMonotone(cells, c, a, b, e + 1);
    }
  }

  lemma {:induction false} CountYMonotone(cells: set<Cell>, c: Cell, a: int, b: nat)
    requires b <= 3
    ensures CountY(cells, c, a, b) <= CountY(cells, c, a, 3)
    decreases 3 - b
  {
    if b < 3 {
      CountYMonotone(cells, c, a, b + 1);
    }
  }

  lemma {:induction false} CountXMonotone(cells: set<Cell>, c: Cell, a: nat)
    requires a <= 3
    ensures CountX(cells, c, a) <= CountX(cells, c, 3)
    decreases 3 - a
  {
    if a < 3 {
      CountXMonotone(cells, c, a + 1);
    }
  }

  /**
   * Once the count so far exceeds 3 the cell cannot end up active, however
   * the loops go on: the early return does not change the answer.
   */
  lemma EarlyReturn(cells: set<Cell>, c: Cell, a: nat, b: nat, e: nat, count: int)
    requires a < 3 && b < 3 && e < 3
    requires count == CountX(cells, c, a) + CountY(cells, c, a, b) + CountZ(cells, c, a, b, e + 1)
    requires count > (if c in cells then ActiveMaxNeighbors else InactiveNeighbors)
    ensures !Activates(cells, c)
  {
    CountZMonotone(cells, c, a, b, e + 1);
    CountYMonotone(cells, c, a, b + 1);
    CountXMonotone(cells, c, a + 1);
    LoopsCountNeighbours(cells, c);
  }

  /**
   * `should_activate(cells, x, y, z, w)`, with `c == (x, y, z, w)`.
   * The early return inside the `zz` loop leaves the answer as it would be
   * without it.
   */
  method ShouldActivate(cells: set<Cell>, c: Cell) returns (r: bool)
    ensures r == Activates(cells, c)
  {
    var x, y, z, w := c.0, c.1, c.2, c.3;
    var current := (x, y, z, w) in cells;
    var count := 0;
    for xx := x - 1 to x + 2
      invariant count == CountX(cells, c, xx - x + 1)
    {
      for yy := y - 1 to y + 2
        invariant count == CountX(cells, c, xx - x + 1) + CountY(cells, c, xx - x + 1, yy - y + 1)
      {
        for zz := z - 1 to z + 2
          invariant count == CountX(cells, c, xx - x + 1) + CountY(cells, c, xx - x + 1, yy - y + 1) +
            CountZ(cells, c, xx - x + 1, yy - y + 1, zz - z + 1)
        {
          for ww := w - 1 to w + 2
            invariant count == CountX(cells, c, xx - x + 1) + CountY(cells, c, xx - x + 1, yy - y + 1) +
              CountZ(cells, c, xx - x + 1, yy - y + 1, zz - z + 1) +
              CountW(cells, c, xx - x + 1, yy - y + 1, zz - z + 1, ww - w + 1)
          {
            if (xx, yy, zz, ww) == (x, y, z, w) {
              continue;
            }
            if (xx, yy, zz, ww) in cells {
              count := count + 1;
            }
          }
          if count > (if current then ActiveMaxNeighbors else InactiveNeighbors) {
            EarlyReturn(cells, c, xx - x + 1, yy - y + 1, zz - z + 1, count);
            return false;
          }
        }
      }
    }
    LoopsCountNeighbours(cells, c);
    if current {
      r := count >= ActiveMinNeighbors && count <= ActiveMaxNeighbors;
    } else {
      r := count == InactiveNeighbors;
    }
  }

  // ---------------------------------------------------------------- iterate

  function Coord(c: Cell, i: int): int {
    if i == 0 then c.0 else if i == 1 then c.1 else if i == 2 then c.2 else c.3
  }

  /** What `min_<i>` holds once the loop over the cells has seen `seen`. */
  predicate LowerBound(seen: set<Cell>, i: int, m: Option<int>) {
    (m.None? <==> seen == {}) && (m.Some? ==> forall c :: c in seen ==> m.value <= Coord(c, i))
  }

  /** What `max_<i>` holds once the loop over the cells has seen `seen`. */
  predicate UpperBound(seen: set<Cell>, i: int, m: Option<int>) {
    (m.None? <==> seen == {}) && (m.Some? ==> forall c :: c in seen ==> Coord(c, i) <= m.value)
  }

  /** `if m is None or v < m: m = v`. */
  function Lower(m: Option<int>, v: int): Option<int> {
    if m.None? || v < m.value then Some(v) else m
  }

  /** `if m is None or v > m: m = v`. */
  function Higher(m: Option<int>, v: int): Option<int> {
    if m.None? || v > m.value then Some(v) else m
  }

  /** The eight running bounds of `iterate`'s first loop, once it has seen `seen`. */
  ghost predicate Tracks(seen: set<Cell>, minX: Option<int>, maxX: Option<int>, minY: Option<int>, maxY: Option<int>,
                         minZ: Option<int>, maxZ: Option<int>, minW: Option<int>, maxW: Option<int>) {
    LowerBound(seen, 0, minX) && UpperBound(seen, 0, maxX) && LowerBound(seen, 1, minY) && UpperBound(seen, 1, maxY) &&
    LowerBound(seen, 2, minZ) && UpperBound(seen, 2, maxZ) && LowerBound(seen, 3, minW) && UpperBound(seen, 3, maxW)
  }

  /** One cell more keeps the bounds. */
  lemma TracksStep(seen: set<Cell>, minX: Option<int>, maxX: Option<int>, minY: Option<int>, maxY: Option<int>,
                   minZ: Option<int>, maxZ: Option<int>, minW: Option<int>, maxW: Option<int>, c: Cell)
    requires Tracks(seen, minX, maxX, minY, maxY, minZ, maxZ, minW, maxW)
    ensures Tracks(seen + {c}, Lower(minX, c.0), Higher(maxX, c.0), Lower(minY, c.1), Higher(maxY, c.1),
                   Lower(minZ, c.2), Higher(maxZ, c.2), Lower(minW, c.3), Higher(maxW, c.3))
  {
    assert Coord(c, 0) == c.0 && Coord(c, 1) == c.1 && Coord(c, 2) == c.2 && Coord(c, 3) == c.3;
  }

  /** With bounds tracked over all the cells, the box they make bounds every cell. */
  lemma TracksBounds(cells: set<Cell>, minX: int, maxX: int, minY: int, maxY: int,
                     minZ: int, maxZ: int, minW: int, maxW: int)
    requires Tracks(cells, Some(minX), Some(maxX), Some(minY), Some(maxY), Some(minZ), Some(maxZ), Some(minW), Some(maxW))
    ensures Bounds(cells, (minX, minY, minZ, minW), (maxX, maxY, maxZ, maxW))
    ensures minX <= maxX && minY <= maxY && minZ <= maxZ && minW <= maxW
  {
    var c :| c in cells;
    assert Coord(c, 0) == c.0 && Coord(c, 1) == c.1 && Coord(c, 2) == c.2 && Coord(c, 3) == c.3;
    forall c | c in cells
      ensures minX <= c.0 <= maxX && minY <= c.1 <= maxY && minZ <= c.2 <= maxZ && minW <= c.3 <= maxW
    {
      assert Coord(c, 0) == c.0 && Coord(c, 1) == c.1 && Coord(c, 2) == c.2 && Coord(c, 3) == c.3;
    }
  }

  /** `d` lies within the box `lo`..`hi` grown by one on every axis. */
  predicate InGrownBox(lo: Cell, hi: Cell, d: Cell) {
    lo.0 - 1 <= d.0 <= hi.0 + 1 && lo.1 - 1 <= d.1 <= hi.1 + 1 &&
    lo.2 - 1 <= d.2 <= hi.2 + 1 && lo.3 - 1 <= d.3 <= hi.3 + 1
  }

  /** Every active cell lies in the box `lo`..`hi`. */
  predicate Bounds(cells: set<Cell>, lo: Cell, hi: Cell) {
    forall c :: c in cells ==> lo.0 <= c.0 <= hi.0 && lo.1 <= c.1 <= hi.1 && lo.2 <= c.2 <= hi.2 && lo.3 <= c.3 <= hi.3
  }

  /**
   * A cell that is active after a cycle lies within any bounding box of the
   * active cells grown by one: `iterate` misses none.
   */
  lemma ActiveInGrownBox(cells: set<Cell>, lo: Cell, hi: Cell, d: Cell)
    requires Bounds(cells, lo, hi) && Activates(cells, d)
    ensures InGrownBox(lo, hi, d)
  {
    if d !in cells {
      assert |Neighbours(cells, d)| > 0;
      var e :| e in Neighbours(cells, d);
    }
  }

  /** Cell `d` of the box comes before (x, y, z, w) in the order of `iterate`'s four loops. */
  predicate Before(d: Cell, x: int, y: int, z: int, w: int) {
    d.0 < x || (d.0 == x && (d.1 < y || (d.1 == y && (d.2 < z || (d.2 == z && d.3 < w)))))
  }

  /**
   * The activated cells of the grown box lo..hi that `iterate`'s loops have
   * found on reaching (x, y, z, w): one step of the `w` loop back, or, at the
   * start of a loop, the end of the enclosing loop's previous round.
   */
  ghost function Found(cells: set<Cell>, lo: Cell, hi: Cell, x: int, y: int, z: int, w: int): set<Cell>
    decreases x - lo.0, y - lo.1, z - lo.2, w - lo.3
  {
    if w > lo.3 - 1 then
      Found(cells, lo, hi, x, y, z, w - 1) + (if Activates(cells, (x, y, z, w - 1)) then {(x, y, z, w - 1)} else {})
    else if z > lo.2 - 1 then Found(cells, lo, hi, x, y, z - 1, hi.3 + 2)
    else if y > lo.1 - 1 then Found(cells, lo, hi, x, y - 1, hi.2 + 2, lo.3 - 1)
    else if x > lo.0 - 1 then Found(cells, lo, hi, x - 1, hi.1 + 2, lo.2 - 1, lo.3 - 1)
    else {}
  }

  /** (x, y, z, w) is a point the loops reach: inside all four ranges, or at the end of an innermost one. */
  predicate Reached(lo: Cell, hi: Cell, x: int, y: int, z: int, w: int) {
    lo.0 - 1 <= x <= hi.0 + 2 && lo.1 - 1 <= y <= hi.1 + 2 && lo.2 - 1 <= z <= hi.2 + 2 && lo.3 - 1 <= w <= hi.3 + 2 &&
    (w > lo.3 - 1 ==> z <= hi.2 + 1 && y <= hi.1 + 1 && x <= hi.0 + 1) &&
    (z > lo.2 - 1 ==> y <= hi.1 + 1 && x <= hi.0 + 1) && (y > lo.1 - 1 ==> x <= hi.0 + 1)
  }

  /** What the loops have found so far: the activated cells of the grown box that they have passed. */
  lemma {:induction false} FoundMembers(cells: set<Cell>, lo: Cell, hi: Cell, x: int, y: int, z: int, w: int, d: Cell)
    requires lo.0 <= hi.0 && lo.1 <= hi.1 && lo.2 <= hi.2 && lo.3 <= hi.3
    requires Reached(lo, hi, x, y, z, w)
    ensures d in Found(cells, lo, hi, x, y, z, w) <==> InGrownBox(lo, hi, d) && Before(d, x, y, z, w) && Activates(cells, d)
    decreases x - lo.0, y - lo.1, z - lo.2, w - lo.3
  {
    if w > lo.3 - 1 {
      FoundMembers(cells, lo, hi, x, y, z, w - 1, d);
      if d.0 == x && d.1 == y && d.2 == z && d.3 == w - 1 {
        assert d == (x, y, z, w - 1);
      }
    } else if z > lo.2 - 1 {
      FoundMembers(cells, lo, hi, x, y, z - 1, hi.3 + 2, d);
    } else if y > lo.1 - 1 {
      FoundMembers(cells, lo, hi, x, y - 1, hi.2 + 2, lo.3 - 1, d);
    } else if x > lo.0 - 1 {
      FoundMembers(cells, lo, hi, x - 1, hi.1 + 2, lo.2 - 1, lo.3 - 1, d);
    }
  }

  /** Once the loops have passed the whole grown box, they have found exactly the activated cells. */
  lemma FoundAll(cells: set<Cell>, lo: Cell, hi: Cell, found: set<Cell>)
    requires lo.0 <= hi.0 && lo.1 <= hi.1 && lo.2 <= hi.2 && lo.3 <= hi.3
    requires Bounds(cells, lo, hi) && found == Found(cells, lo, hi, hi.0 + 2, lo.1 - 1, lo.2 - 1, lo.3 - 1)
    ensures forall d :: d in found <==> Activates(cells, d)
  {
    forall d ensures d in found <==> Activates(cells, d) {
      FoundMembers(cells, lo, hi, hi.0 + 2, lo.1 - 1, lo.2 - 1, lo.3 - 1, d);
      if Activates(cells, d) {
        ActiveInGrownBox(cells, lo, hi, d);
      }
    }
  }

  /**
   * The first loop of `iterate(cells)`: the least and the greatest value of
   * each coordinate, as the corners `lo` and `hi` of a box; None when there
   * are no cells, and the eight bounds are still None.
   */
  method BoundingBox(cells: set<Cell>) returns (box: Option<(Cell, Cell)>)
    ensures box.None? <==> cells == {}
    ensures box.Some? ==> var (lo, hi) := box.value;
      lo.0 <= hi.0 && lo.1 <= hi.1 && lo.2 <= hi.2 && lo.3 <= hi.3 && Bounds(cells, lo, hi)
  {
    var minX, maxX, minY, maxY: Option<int> := None, None, None, None;
    var minZ, maxZ, minW, maxW: Option<int> := None, None, None, None;
    var rest := cells;
    ghost var seen: set<Cell> := {};
    while rest != {}
      invariant seen + rest == cells
      invariant Tracks(seen, minX, maxX, minY, maxY, minZ, maxZ, minW, maxW)
      decreases |rest|
    {
      var c :| c in rest;
      var x, y, z, w := c.0, c.1, c.2, c.3;
      TracksStep(seen, minX, maxX, minY, maxY, minZ, maxZ, minW, maxW, c);
      minX := Lower(minX, x);
      maxX := Higher(maxX, x);
      minY := Lower(minY, y);
      maxY := Higher(maxY, y);
      minZ := Lower(minZ, z);
      maxZ := Higher(maxZ, z);
      minW := Lower(minW, w);
      maxW := Higher(maxW, w);
      rest := rest - {c};
      seen := seen + {c};
    }
    assert seen == cells;
    if minX.None? || maxX.None? || minY.None? || maxY.None? || minZ.None? || maxZ.None? || minW.None? || maxW.None? {
      return None;
    }
    TracksBounds(cells, minX.value, maxX.value, minY.value, maxY.value, minZ.value, maxZ.value, minW.value, maxW.value);
    return Some(((minX.value, minY.value, minZ.value, minW.value), (maxX.value, maxY.value, maxZ.value, maxW.value)));
  }

  /**
   * `iterate(cells)`: one cycle. The new set holds exactly the cells the rule
   * makes active, wherever they are; no active cells at all is Python's
   * TypeError on `None - 1`.
   */
  method Iterate(cells: set<Cell>) returns (r: Result<set<Cell>>)
    ensures r.Err? <==> cells == {}
    ensures r.Err? ==> r.msg == "TypeError"
    ensures r.Ok? ==> forall d :: d in r.value <==> Activates(cells, d)
  {
    var box := BoundingBox(cells);
    if box.None? {
      return Err("TypeError");
    }
    var (lo, hi) := box.value;
    var newCells: set<Cell> := {};
    for x := lo.0 - 1 to hi.0 + 2
      invariant newCells == Found(cells, lo, hi, x, lo.1 - 1, lo.2 - 1, lo.3 - 1)
    {
      for y := lo.1 - 1 to hi.1 + 2
        invariant newCells == Found(cells, lo, hi, x, y, lo.2 - 1, lo.3 - 1)
      {
        for z := lo.2 - 1 to hi.2 + 2
          invariant newCells == Found(cells, lo, hi, x, y, z, lo.3 - 1)
        {
          for w := lo.3 - 1 to hi.3 + 2
            invariant newCells == Found(cells, lo, hi, x, y, z, w)
          {
            var a := ShouldActivate(cells, (x, y, z, w));
            if a {
              newCells := newCells + {(x, y, z, w)};
            }
          }
        }
      }
    }
    FoundAll(cells, lo, hi, newCells);
    return Ok(newCells);
  }

  // ---------------------------------------------------------------- examples

  /** A single active cell has no active neighbour, so nothing is active after a cycle. */
  lemma LoneCellDies(c: Cell, d: Cell)
    ensures !Activates({c}, d)
  {
    var n := Neighbours({c}, d);
    if c in n {
      assert n == {c};
    } else {
      assert n == {};
    }
  }

  /**
   * Three cells in a row along x: the middle one keeps its two neighbours and
   * stays, the ends have one each and go, and the cells beside the middle are
   * born from all three.
   */
  lemma RowOfThree(cells: set<Cell>)
    requires cells == {(0, 0, 0, 0), (1, 0, 0, 0), (2, 0, 0, 0)}
    ensures Activates(cells, (1, 0, 0, 0))
    ensures !Activates(cells, (0, 0, 0, 0)) && !Activates(cells, (2, 0, 0, 0))
    ensures Activates(cells, (1, 1, 0, 0)) && Activates(cells, (1, 0, 0, -1))
  {
    assert Neighbours(cells, (1, 0, 0, 0)) == {(0, 0, 0, 0), (2, 0, 0, 0)};
    assert Neighbours(cells, (0, 0, 0, 0)) == {(1, 0, 0, 0)};
    assert Neighbours(cells, (2, 0, 0, 0)) == {(1, 0, 0, 0)};
    assert Neighbours(cells, (1, 1, 0, 0)) == cells;
    assert Neighbours(cells, (1, 0, 0, -1)) == cells;
  }

  /** The sample file: a glider in the plane z = w = 0. */
  predicate IsSample(lines: seq<string>) {
    lines == [".#.\n", "..#\n", "###\n"]
  }

  lemma SampleHash(lines: seq<string>, x: int, y: int)
    requires IsSample(lines)
    ensures IsHash(lines, x, y) <==> (y == 0 && x == 1) || (y == 1 && x == 2) || (y == 2 && 0 <= x < 3)
  {
    Py.RStripNewline(".#.");
    Py.RStripNewline("..#");
    Py.RStripNewline("###");
    var r := Py.RStrip(lines[0]);
    assert r == ".#.";
    r := Py.RStrip(lines[1]);
    assert r == "..#";
    r := Py.RStrip(lines[2]);
    assert r == "###";
  }

  lemma SampleParse(lines: seq<string>)
    requires IsSample(lines)
    ensures Initial(lines) == {(1, 0, 0, 0), (2, 1, 0, 0), (0, 2, 0, 0), (1, 2, 0, 0), (2, 2, 0, 0)}
  {
    var expected := {(1, 0, 0, 0), (2, 1, 0, 0), (0, 2, 0, 0), (1, 2, 0, 0), (2, 2, 0, 0)};
    forall c ensures c in Initial(lines) <==> c in expected {
      InitialCells(lines, c);
      SampleHash(lines, c.0, c.1);
    }
  }
}
