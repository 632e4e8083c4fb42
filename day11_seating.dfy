/**
 * Day 11 (11/11.py): the seat layout as a cellular automaton. A seat with no
 * occupied neighbour fills, one with four or more occupied neighbours empties,
 * and the layout is iterated until it stops changing.
 */
module Seating {
  import opened Base
  import Py

  datatype Seat = Floor | Empty | Occupied

  /** One list of seats per line; rows may in principle differ in length. */
  type Grid = seq<seq<Seat>>

  // ---------------------------------------------------------------- parsing

  /** `str_to_seat[c]`: an unknown character raises KeyError. */
  function SeatOf(c: char): (r: Result<Seat>)
    ensures r.Ok? <==> c in {'.', 'L', '#'}
  {
    if c == '.' then Ok(Floor)
    else if c == 'L' then Ok(Empty)
    else if c == '#' then Ok(Occupied)
    else Err("KeyError")
  }

  function SeatChar(s: Seat): char {
    match s
    case Floor => '.'
    case Empty => 'L'
    case Occupied => '#'
  }

  /** `parse_line`: one seat per character of the line without its trailing whitespace. */
  function ParseLine(line: string): Result<seq<Seat>> {
    MapResult(SeatOf, Py.RStrip(line))
  }

  /** Rendering a row and parsing it back gives the row. */
  lemma {:induction false} ParseRender(row: seq<Seat>)
    ensures ParseLine(seq(|row|, i requires 0 <= i < |row| => SeatChar(row[i]))) == Ok(row)
  {
    var s := seq(|row|, i requires 0 <= i < |row| => SeatChar(row[i]));
    assert Py.RStrip(s) == s by {
      if s != [] { assert !Py.IsSpaceChar(s[|s| - 1]); }
    }
    var r := MapResult(SeatOf, s);
    assert forall i :: 0 <= i < |s| ==> SeatOf(s[i]) == Ok(row[i]);
    assert r.value == row;
  }

  // ---------------------------------------------------------------- one seat

  /** `is_occupied`: negative indices are off the grid, and so is anything past the end of the grid or its row. */
  predicate IsOccupied(g: Grid, r: int, c: int) {
    if r < 0 || c < 0 then false
    else if r < |g| && c < |g[r]| then g[r][c] == Occupied
    else false
  }

  /** The eight positions listed at 11/11.py:27-31, in order. */
  function Neighbours(row: int, col: int): (ns: seq<(int, int)>)
    ensures |ns| == 8
  {
    [ (row - 1, col - 1), (row - 1, col), (row - 1, col + 1),
      (row, col - 1), (row, col + 1),
      (row + 1, col - 1), (row + 1, col), (row + 1, col + 1) ]
  }

  /** `all(not is_occupied(...) for ...)`. */
  predicate AllFree(g: Grid, ns: seq<(int, int)>) {
    forall i :: 0 <= i < |ns| ==> !IsOccupied(g, ns[i].0, ns[i].1)
  }

  /** `sum(is_occupied(...) for ...)`: a bool counts 1 or 0. */
  function CountOccupiedAt(g: Grid, ns: seq<(int, int)>): nat {
    if ns == [] then 0
    else (if IsOccupied(g, ns[0].0, ns[0].1) then 1 else 0) + CountOccupiedAt(g, ns[1..])
  }

  /** `get_new_seat_state` for a position of the grid. */
  function NewSeatState(g: Grid, row: nat, col: nat): Seat
    requires row < |g| && col < |g[row]|
  {
    var seat := g[row][col];
    if seat == Empty && AllFree(g, Neighbours(row, col)) then Occupied
    else if seat == Occupied && CountOccupiedAt(g, Neighbours(row, col)) >= 4 then Empty
    else seat
  }

  /** The positions next to (row, col) — the eight cells around it — that hold an occupied seat. */
  function OccupiedAround(g: Grid, row: int, col: int): set<(int, int)> {
    set r, c | row - 1 <= r <= row + 1 && col - 1 <= c <= col + 1 && (r, c) != (row, col) && IsOccupied(g, r, c) :: (r, c)
  }

  /** Every occupied position is inside the grid: off-grid neighbours, negative ones included, count as free. */
  lemma OccupiedAroundInGrid(g: Grid, row: int, col: int)
    ensures forall p :: p in OccupiedAround(g, row, col) ==>
              0 <= p.0 < |g| && 0 <= p.1 < |g[p.0]| && g[p.0][p.1] == Occupied
  {
  }

  /** The set of listed positions that are occupied. */
  function OccupiedIn(g: Grid, ns: seq<(int, int)>): (s: set<(int, int)>)
    ensures forall p :: p in s <==> p in ns && IsOccupied(g, p.0, p.1)
  {
    if ns == [] then {}
    else
      assert forall p :: p in ns <==> p == ns[0] || p in ns[1..];
      (if IsOccupied(g, ns[0].0, ns[0].1) then {ns[0]} else {}) + OccupiedIn(g, ns[1..])
  }

  /** Over a list without repeats, the sum of the occupied flags is the number of occupied positions. */
  lemma {:induction false} CountIsCard(g: Grid, ns: seq<(int, int)>)
    requires forall i, j :: 0 <= i < j < |ns| ==> ns[i] != ns[j]
    ensures CountOccupiedAt(g, ns) == |OccupiedIn(g, ns)|
  {
    if ns != [] {
      var rest := ns[1..];
      CountIsCard(g, rest);
      assert ns[0] !in rest by {
        forall k | 0 <= k < |rest| ensures rest[k] != ns[0] {
          assert rest[k] == ns[k + 1];
        }
      }
      assert ns[0] !in OccupiedIn(g, rest);
    }
  }

  /** The listed neighbours are exactly the eight cells around (row, col). */
  lemma InNeighbours(row: int, col: int, r: int, c: int)
    ensures (r, c) in Neighbours(row, col) <==>
            row - 1 <= r <= row + 1 && col - 1 <= c <= col + 1 && (r, c) != (row, col)
  {
    var ns := Neighbours(row, col);
    if row - 1 <= r <= row + 1 && col - 1 <= c <= col + 1 && (r, c) != (row, col) {
      var k := if r == row - 1 then c - col + 1 else if r == row then (if c < col then 3 else 4) else c - col + 6;
      assert ns[k] == (r, c);
    }
  }

  /** The occupied listed neighbours are the occupied cells around (row, col). */
  lemma NeighboursAround(g: Grid, row: int, col: int)
    ensures OccupiedIn(g, Neighbours(row, col)) == OccupiedAround(g, row, col)
  {
    forall p ensures p in OccupiedIn(g, Neighbours(row, col)) <==> p in OccupiedAround(g, row, col) {
      InNeighbours(row, col, p.0, p.1);
    }
  }

  /** The eight listed neighbours are distinct. */
  lemma NeighboursDistinct(row: int, col: int)
    ensures var ns := Neighbours(row, col);
            forall i, j :: 0 <= i < j < |ns| ==> ns[i] != ns[j]
  {
  }

  /** `sum(...)` over the neighbour list counts the occupied cells around the seat. */
  lemma NeighbourCount(g: Grid, row: int, col: int)
    ensures CountOccupiedAt(g, Neighbours(row, col)) == |OccupiedAround(g, row, col)|
  {
    NeighboursDistinct(row, col);
    CountIsCard(g, Neighbours(row, col));
    NeighboursAround(g, row, col);
  }

  /** `all(...)` over the neighbour list holds exactly when no cell around the seat is occupied. */
  lemma AllFreeIff(g: Grid, row: int, col: int)
    ensures AllFree(g, Neighbours(row, col)) <==> OccupiedAround(g, row, col) == {}
  {
    var ns := Neighbours(row, col);
    NeighboursAround(g, row, col);
    if !AllFree(g, ns) {
      var i :| 0 <= i < |ns| && IsOccupied(g, ns[i].0, ns[i].1);
      assert ns[i] in OccupiedIn(g, ns);
    } else {
      forall p | p in ns ensures !IsOccupied(g, p.0, p.1) {
        var i :| 0 <= i < |ns| && ns[i] == p;
      }
    }
  }

  /** The rules of 11/11.py:24-45 stated over the cells around the seat: floor never changes, an empty seat
   * with no occupied cell around it fills, an occupied seat with four or more around it empties, and
   * every other seat keeps its state. */
  lemma NewSeatStateRules(g: Grid, row: nat, col: nat)
    requires row < |g| && col < |g[row]|
    ensures var s, n := NewSeatState(g, row, col), OccupiedAround(g, row, col);
            && (g[row][col] == Floor ==> s == Floor)
            && (g[row][col] == Empty ==> s == if n == {} then Occupied else Empty)
            && (g[row][col] == Occupied ==> s == if |n| >= 4 then Empty else Occupied)
  {
    AllFreeIff(g, row, col);
    NeighbourCount(g, row, col);
  }

  /** A seat in the top-left corner has at most three cells around it on the grid, so once occupied it stays. */
  lemma CornerStaysOccupied(g: Grid)
    requires |g| > 0 && |g[0]| > 0 && g[0][0] == Occupied
    ensures NewSeatState(g, 0, 0) == Occupied
  {
    NewSeatStateRules(g, 0, 0);
    var n := OccupiedAround(g, 0, 0);
    assert n <= {(0, 1), (1, 0), (1, 1)};
    SubsetCard(n, {(0, 1), (1, 0), (1, 1)});
  }

  lemma {:induction false} SubsetCard<T>(a: set<T>, b: set<T>)
    requires a <= b
    ensures |a| <= |b|
    decreases |b|
  {
    if b != {} {
      assert (forall y :: y !in b) ==> b == {};
      var x :| x in b;
      SubsetCard(a - {x}, b - {x});
    }
  }

  // ---------------------------------------------------------------- the whole grid

  /**
   * Every row is at least as long as the first: what `iterate` needs to index each seat it visits.
   * An empty grid qualifies: with no rows the comprehension never reads `seats[0]`.
   */
  predicate Indexable(g: Grid) {
    forall i :: 0 <= i < |g| ==> |g[i]| >= |g[0]|
  }

  /** `iterate` on values: the first row sets the width, and a shorter row raises IndexError. */
  function Iterate(g: Grid): Result<Grid> {
    if !Indexable(g) then Err("IndexError")
    else Ok(seq(|g|, i requires 0 <= i < |g| => seq(|g[0]|, j requires 0 <= j < |g[0]| => NewSeatState(g, i, j))))
  }

  /** The new grid has |g| rows of the first row's width, and every cell follows the seat rules. */
  lemma IterateShape(g: Grid)
    ensures Iterate(g).Ok? <==> Indexable(g)
    ensures Iterate(g).Ok? ==> var h := Iterate(g).value;
              && |h| == |g|
              && (forall i :: 0 <= i < |h| ==> |h[i]| == |g[0]|)
              && forall i, j :: 0 <= i < |h| && 0 <= j < |h[i]| ==> j < |g[i]| && h[i][j] == NewSeatState(g, i, j)
  {
  }

  /** A grid of equal-length rows keeps its dimensions. */
  lemma IterateKeepsDimensions(g: Grid)
    requires forall i :: 0 <= i < |g| ==> |g[i]| == |g[0]|
    ensures Iterate(g).Ok?
    ensures |Iterate(g).value| == |g| && forall i :: 0 <= i < |g| ==> |Iterate(g).value[i]| == |g[i]|
  {
  }

  /** From a layout with no occupied seat, one round fills every seat (the first step of the puzzle). */
  lemma IterateFromEmpty(g: Grid)
    requires Indexable(g)
    requires forall i, j :: 0 <= i < |g| && 0 <= j < |g[i]| ==> g[i][j] != Occupied
    ensures var h := Iterate(g).value;
            forall i, j :: 0 <= i < |h| && 0 <= j < |h[i]| ==> h[i][j] == if g[i][j] == Floor then Floor else Occupied
  {
    var h := Iterate(g).value;
    forall i, j | 0 <= i < |h| && 0 <= j < |h[i]| ensures h[i][j] == if g[i][j] == Floor then Floor else Occupied {
      NewSeatStateRules(g, i, j);
      OccupiedAroundInGrid(g, i, j);
      assert OccupiedAround(g, i, j) == {};
    }
  }

  /** `iterate`: fill a floor-only grid of the first row's width, cell by cell in row-major order. */
  method IterateSeats(seats: Grid) returns (r: Result<Grid>)
    ensures r == Iterate(seats)
  {
    var width := if |seats| == 0 then 0 else |seats[0]|;
    var seatsNew: Grid := seq(|seats|, _ => seq(width, _ => Floor));
    for row := 0 to |seats|
      invariant |seatsNew| == |seats| && forall i :: 0 <= i < |seats| ==> |seatsNew[i]| == width
      invariant forall i :: 0 <= i < row ==> |seats[i]| >= width
      invariant forall i, j :: 0 <= i < row && 0 <= j < width ==> j < |seats[i]| && seatsNew[i][j] == NewSeatState(seats, i, j)
    {
      for col := 0 to width
        invariant |seatsNew| == |seats| && forall i :: 0 <= i < |seats| ==> |seatsNew[i]| == width
        invariant col <= |seats[row]|
        invariant forall i, j :: 0 <= i < row && 0 <= j < width ==> j < |seats[i]| && seatsNew[i][j] == NewSeatState(seats, i, j)
        invariant forall j :: 0 <= j < col ==> seatsNew[row][j] == NewSeatState(seats, row, j)
      {
        if col >= |seats[row]| {
          return Err("IndexError");
        }
        seatsNew := seatsNew[row := seatsNew[row][col := NewSeatState(seats, row, col)]];
      }
    }
    assert Indexable(seats);
    r := Ok(seatsNew);
    assert seatsNew == Iterate(seats).value by {
      var h := Iterate(seats).value;
      assert |h| == |seatsNew|;
      forall i | 0 <= i < |h| ensures h[i] == seatsNew[i] {
        assert |h[i]| == |seatsNew[i]|;
      }
    }
  }

  // ---------------------------------------------------------------- converging

  /**
   * `converge` with at most `fuel` rounds: the first grid that `iterate` leaves as it is, or the
   * IndexError of a round. `None` means no fixed point was reached within `fuel` rounds.
   */
  function Converge(g: Grid, fuel: nat): Option<Result<Grid>>
    decreases fuel
  {
    if fuel == 0 then None
    else match Iterate(g)
      case Err(m) => Some(Err(m))
      case Ok(h) => if h == g then Some(Ok(h)) else Converge(h, fuel - 1)
  }

  /** The converged grid is a fixed point of `iterate` (11/11.py:57-58). */
  lemma {:induction false} ConvergeIsFixedPoint(g: Grid, fuel: nat)
    requires Converge(g, fuel).Some? && Converge(g, fuel).value.Ok?
    ensures Iterate(Converge(g, fuel).value.value) == Ok(Converge(g, fuel).value.value)
    decreases fuel
  {
    var h := Iterate(g).value;
    if h != g {
      ConvergeIsFixedPoint(h, fuel - 1);
    }
  }

  /** A fixed point converges to itself in one round. */
  lemma ConvergeFixedPoint(g: Grid, fuel: nat)
    requires Iterate(g) == Ok(g) && fuel > 0
    ensures Converge(g, fuel) == Some(Ok(g))
  {
  }

  /** The empty grid is its own next round, so `converge([])` returns `[]` after one round. */
  lemma EmptyGrid(fuel: nat)
    requires fuel > 0
    ensures Iterate([]) == Ok([])
    ensures Converge([], fuel) == Some(Ok([]))
  {
    var g: Grid := [];
    assert Indexable(g);
    assert |Iterate(g).value| == 0;
  }

  /** More rounds never change an answer already reached. */
  lemma {:induction false} ConvergeMoreFuel(g: Grid, fuel: nat, more: nat)
    requires Converge(g, fuel).Some? && fuel <= more
    ensures Converge(g, more) == Converge(g, fuel)
    decreases fuel
  {
    if Iterate(g).Ok? && Iterate(g).value != g {
      ConvergeMoreFuel(Iterate(g).value, fuel - 1, more - 1);
    }
  }

  /** `converge`: the `while True` loop, stopped after `fuel` rounds. */
  method ConvergeSeats(seats: Grid, fuel: nat) returns (r: Option<Result<Grid>>)
    ensures r == Converge(seats, fuel)
  {
    var current := seats;
    var left := fuel;
    while true
      invariant Converge(current, left) == Converge(seats, fuel)
      decreases left
    {
      if left == 0 {
        return None;
      }
      var step := IterateSeats(current);
      if step.Err? {
        return Some(Err(step.msg));
      }
      var seatsNew := step.value;
      if seatsNew == current {
        return Some(Ok(seatsNew));
      }
      current := seatsNew;
      left := left - 1;
    }
  }

  // ---------------------------------------------------------------- counting

  /** `row.count(Seat.OCCUPIED)`. */
  function RowCount(row: seq<Seat>): nat {
    if row == [] then 0 else (if row[0] == Occupied then 1 else 0) + RowCount(row[1..])
  }

  /** `count_occupied`: the row counts added up. */
  function CountOccupied(g: Grid): nat {
    if g == [] then 0 else RowCount(g[0]) + CountOccupied(g[1..])
  }

  /** `row.count` is the multiplicity of occupied seats in the row. */
  lemma {:induction false} RowCountMultiset(row: seq<Seat>)
    ensures RowCount(row) == multiset(row)[Occupied]
  {
    if row != [] {
      RowCountMultiset(row[1..]);
      assert row == [row[0]] + row[1..];
      assert multiset(row) == multiset{row[0]} + multiset(row[1..]);
    }
  }

  /** The count is zero exactly when no seat is occupied. */
  lemma {:induction false} CountOccupiedZero(g: Grid)
    ensures CountOccupied(g) == 0 <==> forall i, j :: 0 <= i < |g| && 0 <= j < |g[i]| ==> g[i][j] != Occupied
  {
    if g != [] {
      CountOccupiedZero(g[1..]);
      RowCountMultiset(g[0]);
      assert forall i :: 1 <= i < |g| ==> g[i] == g[1..][i - 1];
      assert multiset(g[0])[Occupied] == 0 <==> Occupied !in g[0];
    }
  }
}
