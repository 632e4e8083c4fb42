/**
 * Day 24, Lobby Layout: a floor of hexagonal tiles, each line of the input
 * a walk from a reference tile written as directions run together
 * (`e`, `w`, `ne`, `nw`, `se`, `sw`). Every walk flips the tile it ends on,
 * and the answer is how many tiles end up black.
 *
 * Tiles live on a doubled-width grid: east and west move two columns, the
 * four diagonal directions one column and one row. `get_neighbor_point`
 * falls off its `if` chain for any other token and so returns Python's
 * `None`; the next step of a walk from `None` raises `AttributeError` if its
 * token is a direction, and stays at `None` if it is not. `None` is a
 * hashable value, so such a walk flips the entry `None` of the set of black
 * tiles. The model keeps all of that: a walk's position is an
 * `Option<Point>`.
 */
module HexTiles {
  import opened Base
  import Py

  datatype Point = Point(x: int, y: int)

  const Origin := Point(0, 0)

  // ---------------------------------------------------------------- split_tokens

  /**
   * The tokens `split_tokens` yields, as `list` collects them: `n` or `s`
   * takes the next character along, any other character stands alone, and
   * an `n` or `s` at the very end makes the generator raise `IndexError`.
   */
  function Tokens(s: string): Result<seq<string>>
    decreases |s|
  {
    if s == [] then Ok([])
    else if s[0] == 'n' || s[0] == 's' then
      if |s| < 2 then Err("IndexError") else Then([s[..2]], Tokens(s[2..]))
    else Then([s[..1]], Tokens(s[1..]))
  }

  /** Tokens `ts` followed by the outcome of scanning the rest. */
  function Then(ts: seq<string>, r: Result<seq<string>>): Result<seq<string>> {
    match r
    case Err(e) => Err(e)
    case Ok(us) => Ok(ts + us)
  }

  lemma ThenThen(ts: seq<string>, us: seq<string>, r: Result<seq<string>>)
    ensures Then(ts, Then(us, r)) == Then(ts + us, r)
  {
    if r.Ok? {
      assert ts + (us + r.value) == (ts + us) + r.value;
    }
  }

  /** The tokens run together again. */
  function Concat(ts: seq<string>): string {
    if ts == [] then "" else ts[0] + Concat(ts[1..])
  }

  lemma {:induction false} ConcatAppend(a: seq<string>, b: seq<string>)
    ensures Concat(a + b) == Concat(a) + Concat(b)
  {
    if a == [] {
      assert a + b == b;
    } else {
      var ab := a + b;
      assert ab[0] == a[0] && ab[1..] == a[1..] + b;
      ConcatAppend(a[1..], b);
      assert a[0] + (Concat(a[1..]) + Concat(b)) == (a[0] + Concat(a[1..])) + Concat(b);
    }
  }

  /** A token the scan can yield: one character other than `n` and `s`, or `n` or `s` and one more. */
  predicate IsToken(t: string) {
    (|t| == 1 && t[0] != 'n' && t[0] != 's') || (|t| == 2 && (t[0] == 'n' || t[0] == 's'))
  }

  predicate IsDirection(t: string) {
    t == "e" || t == "w" || t == "ne" || t == "nw" || t == "se" || t == "sw"
  }

  /** A successful scan cuts the line into tokens without losing or adding a character. */
  lemma {:induction false} TokensSplit(s: string)
    ensures Tokens(s).Ok? ==> Concat(Tokens(s).value) == s
    ensures Tokens(s).Ok? ==> forall i :: 0 <= i < |Tokens(s).value| ==> IsToken(Tokens(s).value[i])
    decreases |s|
  {
    if s != [] {
      if s[0] == 'n' || s[0] == 's' {
        if |s| >= 2 {
          TokensSplit(s[2..]);
          assert s == s[..2] + s[2..];
        }
      } else {
        TokensSplit(s[1..]);
        assert s == s[..1] + s[1..];
      }
    }
  }

  /** Scanning a line that splits cleanly, then more, is scanning the two parts one after the other. */
  lemma {:induction false} TokensAppend(a: string, b: string)
    requires Tokens(a).Ok?
    ensures Tokens(a + b) == Then(Tokens(a).value, Tokens(b))
    decreases |a|
  {
    if a == [] {
      assert a + b == b;
      if Tokens(b).Ok? {
        assert [] + Tokens(b).value == Tokens(b).value;
      }
    } else {
      var k := if a[0] == 'n' || a[0] == 's' then 2 else 1;
      var ab := a + b;
      assert ab[0] == a[0] && ab[k..] == a[k..] + b && ab[..k] == a[..k];
      TokensAppend(a[k..], b);
      ThenThen([a[..k]], Tokens(a[k..]).value, Tokens(b));
    }
  }

  lemma TokenAlone(t: string)
    requires IsToken(t)
    ensures Tokens(t) == Ok([t])
  {
    assert t[|t|..] == [] && t[..|t|] == t && [t] + [] == [t];
  }

  /** Tokens written out one after another scan back to the same tokens. */
  lemma {:induction false} TokensOfConcat(ts: seq<string>)
    requires forall i :: 0 <= i < |ts| ==> IsToken(ts[i])
    ensures Tokens(Concat(ts)) == Ok(ts)
  {
    if ts != [] {
      TokenAlone(ts[0]);
      TokensOfConcat(ts[1..]);
      TokensAppend(ts[0], Concat(ts[1..]));
      assert ts == [ts[0]] + ts[1..];
    }
  }

  /** Every direction is a token, so a walk written out reads back as the same walk. */
  lemma DirectionsRoundTrip(ds: seq<string>)
    requires forall i :: 0 <= i < |ds| ==> IsDirection(ds[i])
    ensures Tokens(Concat(ds)) == Ok(ds)
  {
    TokensOfConcat(ds);
  }

  /** The scan fails exactly when the part before the last character splits cleanly and that character is `n` or `s`. */
  lemma {:induction false} TokensFail(s: string)
    ensures Tokens(s).Err? <==> s != [] && (s[|s| - 1] == 'n' || s[|s| - 1] == 's') && Tokens(s[..|s| - 1]).Ok?
    ensures Tokens(s).Err? ==> Tokens(s).msg == "IndexError"
    decreases |s|
  {
    if s == [] {
    } else if |s| == 1 {
      assert s[..0] == [];
    } else {
      var k := if s[0] == 'n' || s[0] == 's' then 2 else 1;
      var init := s[..|s| - 1];
      if |s| == 2 && k == 2 {
        assert init == [s[0]];
        assert Tokens(init).Err?;
      } else {
        TokensFail(s[k..]);
        assert s[k..][..|s[k..]| - 1] == init[k..];
        assert s[k..][|s[k..]| - 1] == s[|s| - 1];
      }
    }
  }

  /** `parse_line`: the tokens of a line without its trailing whitespace. */
  function ParseLine(line: string): Result<seq<string>> {
    Tokens(Py.RStrip(line))
  }

  /** `parse_input`: every line parsed; the first line that fails is the outcome. */
  function ParseInput(lines: seq<string>): (r: Result<seq<seq<string>>>)
    ensures r.Ok? <==> forall i :: 0 <= i < |lines| ==> ParseLine(lines[i]).Ok?
    ensures r.Ok? ==> |r.value| == |lines| && forall i :: 0 <= i < |lines| ==> ParseLine(lines[i]) == Ok(r.value[i])
  {
    MapResult(ParseLine, lines)
  }

  /**
   * The generator's loop: `i` walks the line; a token starting with `n` or
   * `s` reads one character further, out of range when there is none.
   */
  method SplitTokens(s: string) returns (r: Result<seq<string>>)
    ensures r == Tokens(s)
  {
    var tokens: seq<string> := [];
    var i := 0;
    assert s[i..] == s;
    if Tokens(s).Ok? {
      assert tokens + Tokens(s).value == Tokens(s).value;
    }
    while i < |s|
      invariant 0 <= i <= |s|
      invariant Tokens(s) == Then(tokens, Tokens(s[i..]))
      decreases |s| - i
    {
      var c := s[i];
      assert s[i..][0] == c;
      i := i + 1;
      if c == 'n' || c == 's' {
        if i >= |s| {
          assert s[i - 1..] == [c];
          return Err("IndexError");
        }
        var c2 := s[i];
        i := i + 1;
        assert s[i - 2..][..2] == [c, c2] && s[i - 2..][2..] == s[i..];
        ThenThen(tokens, [[c, c2]], Tokens(s[i..]));
        tokens := tokens + [[c, c2]];
      } else {
        assert s[i - 1..][..1] == [c] && s[i - 1..][1..] == s[i..];
        ThenThen(tokens, [[c]], Tokens(s[i..]));
        tokens := tokens + [[c]];
      }
    }
    assert s[i..] == [] && tokens + [] == tokens;
    return Ok(tokens);
  }

  lemma SampleLine()
    ensures ParseLine("esenee\n") == Ok(["e", "se", "ne", "e"])
  {
    assert Py.RStrip("esenee\n") == "esenee" by {
      assert Py.IsSpaceChar('\n') && !Py.IsSpaceChar('e');
    }
    DirectionsRoundTrip(["e", "se", "ne", "e"]);
    assert Concat(["e", "se", "ne", "e"]) == "esenee";
  }

  // ---------------------------------------------------------------- get_neighbor_point, get_point

  /** `get_neighbor_point`: the adjacent tile in a direction; `None` for any other token. */
  function Neighbor(p: Point, d: string): (r: Option<Point>)
    ensures r.Some? <==> IsDirection(d)
  {
    if d == "e" then Some(Point(p.x + 2, p.y))
    else if d == "w" then Some(Point(p.x - 2, p.y))
    else if d == "ne" then Some(Point(p.x + 1, p.y + 1))
    else if d == "nw" then Some(Point(p.x - 1, p.y + 1))
    else if d == "se" then Some(Point(p.x + 1, p.y - 1))
    else if d == "sw" then Some(Point(p.x - 1, p.y - 1))
    else None
  }

  function Opposite(d: string): string {
    if d == "e" then "w" else if d == "w" then "e"
    else if d == "ne" then "sw" else if d == "sw" then "ne"
    else if d == "nw" then "se" else "nw"
  }

  /** Stepping in a direction and then in the opposite one comes back to the same tile. */
  lemma NeighborBack(p: Point, d: string)
    requires IsDirection(d)
    ensures IsDirection(Opposite(d)) && Neighbor(Neighbor(p, d).value, Opposite(d)) == Some(p)
  {
  }

  /** The six neighbours are six different tiles, none of them the tile itself. */
  lemma NeighborsDistinct(p: Point, d1: string, d2: string)
    requires IsDirection(d1) && IsDirection(d2)
    ensures Neighbor(p, d1).value != p
    ensures Neighbor(p, d1) == Neighbor(p, d2) <==> d1 == d2
  {
  }

  /** One step of `get_point` from the position so far, `None` included. */
  function Step(point: Option<Point>, d: string): Result<Option<Point>> {
    match point
    case Some(p) => Ok(Neighbor(p, d))
    case None => if IsDirection(d) then Err("AttributeError") else Ok(None)
  }

  /** The position a walk reaches from `point`. */
  function Walk(point: Option<Point>, steps: seq<string>): Result<Option<Point>>
    decreases |steps|
  {
    if steps == [] then Ok(point)
    else
      match Step(point, steps[0])
      case Err(e) => Err(e)
      case Ok(next) => Walk(next, steps[1..])
  }

  /** `get_point`: the tile a walk from the reference tile ends on. */
  function PointOf(steps: seq<string>): Result<Option<Point>> {
    Walk(Some(Origin), steps)
  }

  method GetPoint(steps: seq<string>) returns (r: Result<Option<Point>>)
    ensures r == PointOf(steps)
  {
    var point: Option<Point> := Some(Origin);
    for i := 0 to |steps|
      invariant PointOf(steps) == Walk(point, steps[i..])
    {
      assert steps[i..][1..] == steps[i + 1..];
      if point.None? {
        if IsDirection(steps[i]) {
          return Err("AttributeError");
        }
      } else {
        point := Neighbor(point.value, steps[i]);
      }
    }
    assert steps[|steps|..] == [];
    return Ok(point);
  }

  /** How many of the steps go in direction `d`. */
  function Count(steps: seq<string>, d: string): nat {
    multiset(steps)[d]
  }

  /** The column a walk of directions moves by, from the direction counts alone. */
  function DeltaX(steps: seq<string>): int {
    2 * (Count(steps, "e") - Count(steps, "w"))
      + Count(steps, "ne") - Count(steps, "nw") + Count(steps, "se") - Count(steps, "sw")
  }

  /** The row a walk of directions moves by, from the direction counts alone. */
  function DeltaY(steps: seq<string>): int {
    Count(steps, "ne") + Count(steps, "nw") - Count(steps, "se") - Count(steps, "sw")
  }

  lemma CountCons(steps: seq<string>, d: string)
    requires steps != []
    ensures Count(steps, d) == (if steps[0] == d then 1 else 0) + Count(steps[1..], d)
  {
    assert steps == [steps[0]] + steps[1..];
    assert multiset(steps) == multiset{steps[0]} + multiset(steps[1..]);
  }

  /** A walk of directions from a tile ends where the direction counts say. */
  lemma {:induction false} WalkCounts(p: Point, steps: seq<string>)
    requires forall i :: 0 <= i < |steps| ==> IsDirection(steps[i])
    ensures Walk(Some(p), steps) == Ok(Some(Point(p.x + DeltaX(steps), p.y + DeltaY(steps))))
    decreases |steps|
  {
    if steps != [] {
      var q := Neighbor(p, steps[0]).value;
      WalkCounts(q, steps[1..]);
      CountCons(steps, "e");
      CountCons(steps, "w");
      CountCons(steps, "ne");
      CountCons(steps, "nw");
      CountCons(steps, "se");
      CountCons(steps, "sw");
    }
  }

  /** `get_point` depends only on how often each direction occurs, not on their order. */
  lemma PointOfOrder(a: seq<string>, b: seq<string>)
    requires forall i :: 0 <= i < |a| ==> IsDirection(a[i])
    requires multiset(a) == multiset(b)
    ensures PointOf(a) == PointOf(b)
  {
    forall i | 0 <= i < |b| ensures IsDirection(b[i]) {
      assert b[i] in multiset(a);
    }
    WalkCounts(Origin, a);
    WalkCounts(Origin, b);
  }

  /** Every tile a walk of directions reaches has an even coordinate sum. */
  lemma PointOfEven(steps: seq<string>)
    requires forall i :: 0 <= i < |steps| ==> IsDirection(steps[i])
    ensures PointOf(steps).Ok? && PointOf(steps).value.Some?
    ensures (PointOf(steps).value.value.x + PointOf(steps).value.value.y) % 2 == 0
  {
    WalkCounts(Origin, steps);
    var n := Count(steps, "e") - Count(steps, "w") + Count(steps, "ne") - Count(steps, "sw");
    assert DeltaX(steps) + DeltaY(steps) == 2 * n;
  }

  lemma SamplePoint()
    ensures PointOf(["e", "se", "ne", "e"]) == Ok(Some(Point(6, 0)))
  {
  }

  // ---------------------------------------------------------------- get_black_tiles

  /** The set of black tiles after flipping, in order, the tile each position names. */
  function Flipped(black: set<Option<Point>>, points: seq<Option<Point>>): set<Option<Point>>
    decreases |points|
  {
    if points == [] then black
    else
      var t := points[0];
      Flipped(if t in black then black - {t} else black + {t}, points[1..])
  }

  /** `get_black_tiles`: every walk's tile flipped, starting from all white; the first walk that raises is the outcome. */
  function BlackTiles(stepLists: seq<seq<string>>): Result<set<Option<Point>>> {
    match MapResult(PointOf, stepLists)
    case Err(e) => Err(e)
    case Ok(points) => Ok(Flipped({}, points))
  }

  /** A tile ends black exactly when it started black and is flipped an even number of times, or the other way round. */
  lemma {:induction false} FlippedParity(black: set<Option<Point>>, points: seq<Option<Point>>, t: Option<Point>)
    ensures t in Flipped(black, points) <==> (t in black) != (multiset(points)[t] % 2 == 1)
    decreases |points|
  {
    if points != [] {
      var u := points[0];
      var next := if u in black then black - {u} else black + {u};
      FlippedParity(next, points[1..], t);
      assert points == [u] + points[1..];
      assert multiset(points) == multiset{u} + multiset(points[1..]);
    }
  }

  /** A tile is black exactly when an odd number of walks end on it. */
  lemma BlackTilesOdd(stepLists: seq<seq<string>>, t: Option<Point>)
    requires BlackTiles(stepLists).Ok?
    ensures t in BlackTiles(stepLists).value <==> multiset(MapResult(PointOf, stepLists).value)[t] % 2 == 1
  {
    FlippedParity({}, MapResult(PointOf, stepLists).value, t);
  }

  /** The walks that end on a tile flip it, and `BlackTiles` fails exactly when some walk does. */
  lemma BlackTilesFail(stepLists: seq<seq<string>>)
    ensures BlackTiles(stepLists).Ok? <==> forall i :: 0 <= i < |stepLists| ==> PointOf(stepLists[i]).Ok?
  {
  }

  method GetBlackTiles(stepLists: seq<seq<string>>) returns (r: Result<set<Option<Point>>>)
    ensures r == BlackTiles(stepLists)
  {
    var black: set<Option<Point>> := {};
    ghost var points: seq<Option<Point>> := [];
    for i := 0 to |stepLists|
      invariant MapResult(PointOf, stepLists[..i]) == Ok(points)
      invariant black == Flipped({}, points)
    {
      var point := GetPoint(stepLists[i]);
      if point.Err? {
        MapResultAppend(stepLists[..i], [stepLists[i]], stepLists[i + 1..]);
        assert stepLists == stepLists[..i] + [stepLists[i]] + stepLists[i + 1..];
        return Err(point.msg);
      }
      FlippedSnoc({}, points, point.value);
      MapResultSnoc(stepLists[..i], stepLists[i], points, point.value);
      assert stepLists[..i + 1] == stepLists[..i] + [stepLists[i]];
      if point.value in black {
        black := black - {point.value};
      } else {
        black := black + {point.value};
      }
      points := points + [point.value];
    }
    assert stepLists[..|stepLists|] == stepLists;
    return Ok(black);
  }

  lemma {:induction false} FlippedSnoc(black: set<Option<Point>>, points: seq<Option<Point>>, t: Option<Point>)
    ensures Flipped(black, points + [t]) ==
      var b := Flipped(black, points); if t in b then b - {t} else b + {t}
    decreases |points|
  {
    if points != [] {
      var u := points[0];
      assert (points + [t])[1..] == points[1..] + [t];
      FlippedSnoc(if u in black then black - {u} else black + {u}, points[1..], t);
    } else {
      assert [t][1..] == [];
    }
  }

  lemma MapResultSnoc(xs: seq<seq<string>>, x: seq<string>, ys: seq<Option<Point>>, y: Option<Point>)
    requires MapResult(PointOf, xs) == Ok(ys) && PointOf(x) == Ok(y)
    ensures MapResult(PointOf, xs + [x]) == Ok(ys + [y])
  {
    forall i | 0 <= i < |xs + [x]| ensures PointOf((xs + [x])[i]).Ok? {
      if i < |xs| { assert (xs + [x])[i] == xs[i]; }
    }
    var r := MapResult(PointOf, xs + [x]);
    assert r.Ok?;
    assert |r.value| == |ys + [y]|;
    forall i | 0 <= i < |ys| + 1 ensures r.value[i] == (ys + [y])[i] {
      assert PointOf((xs + [x])[i]) == Ok(r.value[i]);
      if i < |xs| { assert (xs + [x])[i] == xs[i]; }
    }
    assert r.value == ys + [y];
  }

  lemma MapResultAppend(xs: seq<seq<string>>, bad: seq<seq<string>>, zs: seq<seq<string>>)
    requires MapResult(PointOf, xs).Ok? && |bad| == 1 && PointOf(bad[0]).Err?
    ensures MapResult(PointOf, xs + bad + zs) == Err(PointOf(bad[0]).msg)
    decreases |xs|
  {
    if xs == [] {
      assert (bad + zs)[0] == bad[0];
      assert [] + bad + zs == bad + zs;
    } else {
      assert (xs + bad + zs)[1..] == xs[1..] + bad + zs;
      assert (xs + bad + zs)[0] == xs[0];
      MapResultAppend(xs[1..], bad, zs);
    }
  }
}
