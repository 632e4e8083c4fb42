/**
 * Day 20 (20/20.py): square image tiles whose four borders are read as binary
 * numbers. A border is matched regardless of direction, through the smaller of
 * the number and its bit reversal; tiles turn and flip into eight orientations,
 * and a tile is a corner, an edge or a middle piece by how many of its borders
 * no other tile shares.
 */
module Jigsaw {
  import opened Base
  import Py
  import opened Bits

  type Edge = seq<bool>
  type Image = seq<seq<bool>>

  // ---------------------------------------------------------------- edges as numbers

  /** `canonicalize_edge`: element i contributes `1 << i`, written in Horner form. */
  function CanonicalizeEdge(edge: Edge): nat {
    if edge == [] then 0 else (if edge[0] then 1 else 0) + 2 * CanonicalizeEdge(edge[1..])
  }

  /** Bit i of the number is set exactly when element i of the edge is true. */
  lemma {:induction false} CanonicalBits(edge: Edge, i: nat)
    ensures Bit(CanonicalizeEdge(edge), i) == (i < |edge| && edge[i])
    decreases edge
  {
    if edge == [] {
      ZeroBits(i);
    } else {
      LowBit(if edge[0] then 1 else 0, CanonicalizeEdge(edge[1..]), i);
      if i > 0 {
        CanonicalBits(edge[1..], i - 1);
      }
    }
  }

  /** An edge of n elements is a number below 2^n. */
  lemma {:induction false} CanonicalBelow(edge: Edge)
    ensures CanonicalizeEdge(edge) < Py.Pow2(|edge|)
    decreases edge
  {
    if edge != [] {
      CanonicalBelow(edge[1..]);
    }
  }

  /** Appending an element adds its bit at the top. */
  lemma {:induction false} CanonicalAppend(edge: Edge, b: bool)
    ensures CanonicalizeEdge(edge + [b]) == CanonicalizeEdge(edge) + (if b then Py.Pow2(|edge|) else 0)
    decreases edge
  {
    if edge == [] {
      assert [] + [b] == [b];
      assert [b][1..] == [];
    } else {
      assert (edge + [b])[1..] == edge[1..] + [b];
      CanonicalAppend(edge[1..], b);
    }
  }

  /** `list(reversed(s))`. */
  function Reverse<T>(s: seq<T>): (r: seq<T>)
    ensures |r| == |s| && forall i :: 0 <= i < |s| ==> r[i] == s[|s| - 1 - i]
  {
    seq(|s|, i requires 0 <= i < |s| => s[|s| - 1 - i])
  }

  /**
   * The number `reverse_edge(edge, length)` computes: the low bit of `edge`
   * becomes bit `length - 1`, and so on down, one bit per loop round.
   */
  function Reversed(edge: nat, length: nat): nat
    decreases length
  {
    if length == 0 then 0
    else (if edge % 2 == 1 then Py.Pow2(length - 1) else 0) + Reversed(edge / 2, length - 1)
  }

  /** `reverse_edge`, with its loop over the bits. */
  method ReverseEdge(edge: nat, length: nat) returns (rev: nat)
    ensures rev == Reversed(edge, length)
  {
    rev := 0;
    var e := edge;
    for i := 0 to length
      invariant rev + Reversed(e, length - i) == Reversed(edge, length)
    {
      if e % 2 == 1 {
        rev := rev + Py.Pow2(length - i - 1);
      }
      e := e / 2;
    }
  }

  /** The low `length` bits of n as an edge, lowest first. */
  function ToBits(n: nat, length: nat): (s: Edge)
    ensures |s| == length
    decreases length
  {
    if length == 0 then [] else [n % 2 == 1] + ToBits(n / 2, length - 1)
  }

  lemma {:induction false} ToBitsBits(n: nat, length: nat, i: nat)
    requires i < length
    ensures ToBits(n, length)[i] == Bit(n, i)
    decreases length
  {
    if i > 0 {
      ToBitsBits(n / 2, length - 1, i - 1);
    }
  }

  /** The reversal is the number of the reversed edge of low bits. */
  lemma {:induction false} ReversedIsEdge(n: nat, length: nat)
    ensures Reversed(n, length) == CanonicalizeEdge(Reverse(ToBits(n, length)))
    decreases length
  {
    if length > 0 {
      var t := ToBits(n / 2, length - 1);
      ReversedIsEdge(n / 2, length - 1);
      assert Reverse(ToBits(n, length)) == Reverse(t) + [n % 2 == 1];
      CanonicalAppend(Reverse(t), n % 2 == 1);
    }
  }

  /** `reverse_edge` mirrors the low `length` bits and sets none above them. */
  lemma ReversedBits(n: nat, length: nat, i: nat)
    ensures Bit(Reversed(n, length), i) == (i < length && Bit(n, length - 1 - i))
  {
    ReversedIsEdge(n, length);
    CanonicalBits(Reverse(ToBits(n, length)), i);
    if i < length {
      ToBitsBits(n, length, length - 1 - i);
    }
  }

  lemma ReversedBelow(n: nat, length: nat)
    ensures Reversed(n, length) < Py.Pow2(length)
  {
    ReversedIsEdge(n, length);
    CanonicalBelow(Reverse(ToBits(n, length)));
  }

  /** Reversing twice gives back any edge below 2^length. */
  lemma ReverseTwice(n: nat, length: nat)
    requires n < Py.Pow2(length)
    ensures Reversed(Reversed(n, length), length) == n
  {
    forall i: nat ensures Bit(Reversed(Reversed(n, length), length), i) == Bit(n, i) {
      ReversedBits(Reversed(n, length), length, i);
      if i < length {
        ReversedBits(n, length, length - 1 - i);
      } else {
        BitsBelow(n, length, i);
      }
    }
    BitsEqual(Reversed(Reversed(n, length), length), n);
  }

  lemma ReversedEdgeBit(edge: Edge, i: nat)
    ensures Bit(Reversed(CanonicalizeEdge(edge), |edge|), i) == Bit(CanonicalizeEdge(Reverse(edge)), i)
  {
    ReversedBits(CanonicalizeEdge(edge), |edge|, i);
    CanonicalBits(Reverse(edge), i);
    if i < |edge| {
      CanonicalBits(edge, |edge| - 1 - i);
    }
  }

  /** Reversing the number of an edge gives the number of the reversed edge. */
  lemma ReversedEdge(edge: Edge)
    ensures Reversed(CanonicalizeEdge(edge), |edge|) == CanonicalizeEdge(Reverse(edge))
  {
    var a, b := Reversed(CanonicalizeEdge(edge), |edge|), CanonicalizeEdge(Reverse(edge));
    forall i: nat ensures Bit(a, i) == Bit(b, i) {
      ReversedEdgeBit(edge, i);
    }
    BitsEqual(a, b);
  }

  /** The test in 20/20.py:215-217: 0b001100010 reversed over 9 bits is 0b010001100. */
  lemma ReverseEdgeSample()
    ensures Reversed(0x62, 9) == 0x8c
  {
    assert Reversed(0, 2) == 0;
    assert Reversed(1, 3) == 4;
    assert Reversed(3, 4) == 12;
    assert Reversed(24, 7) == 12;
    assert Reversed(49, 8) == 140;
  }

  /** `get_edge_min`: `min(edge, reverse_edge(edge, length))`. */
  function EdgeMin(edge: nat, length: nat): (m: nat)
    ensures m <= edge && m <= Reversed(edge, length)
    ensures m == edge || m == Reversed(edge, length)
  {
    var rev := Reversed(edge, length);
    if rev < edge then rev else edge
  }

  /** `get_edge_min`, calling the loop of `reverse_edge`. */
  method GetEdgeMin(edge: nat, length: nat) returns (m: nat)
    ensures m == EdgeMin(edge, length)
  {
    var rev := ReverseEdge(edge, length);
    m := if rev < edge then rev else edge;
  }

  /** An edge and its reversal have the same minimum, so a border is matched in either direction. */
  lemma EdgeMinReversed(edge: nat, length: nat)
    requires edge < Py.Pow2(length)
    ensures EdgeMin(Reversed(edge, length), length) == EdgeMin(edge, length)
  {
    ReverseTwice(edge, length);
  }

  // ---------------------------------------------------------------- tiles

  predicate RowsNonEmpty(image: Image) {
    forall k :: 0 <= k < |image| ==> |image[k]| >= 1
  }

  /** `[row[0] for row in image]`. */
  function FirstColumn(image: Image): (c: Edge)
    requires RowsNonEmpty(image)
    ensures |c| == |image|
  {
    seq(|image|, k requires 0 <= k < |image| => image[k][0])
  }

  /** `[row[-1] for row in image]`. */
  function LastColumn(image: Image): (c: Edge)
    requires RowsNonEmpty(image)
    ensures |c| == |image|
  {
    seq(|image|, k requires 0 <= k < |image| => image[k][|image[k]| - 1])
  }

  /**
   * `Tile`: never changed after construction, so a value. Its borders are
   * computed once, in `__init__`.
   */
  datatype Tile = Tile(image: Image, tileNum: int, top: nat, bottom: nat, left: nat, right: nat, length: nat) {
    /** `edges`. */
    function Edges(): seq<nat> {
      [top, bottom, left, right]
    }
  }

  /** A tile as `__init__` leaves it. */
  predicate Valid(t: Tile) {
    t.image != [] && RowsNonEmpty(t.image)
    && t.top == CanonicalizeEdge(t.image[0])
    && t.bottom == CanonicalizeEdge(t.image[|t.image| - 1])
    && t.left == CanonicalizeEdge(FirstColumn(t.image))
    && t.right == CanonicalizeEdge(LastColumn(t.image))
    && t.length == |t.image[0]|
  }

  /** `Tile(image, tile_num)`: `image[0]` of no rows and `row[0]` of an empty row raise IndexError. */
  function NewTile(image: Image, tileNum: int): (r: Result<Tile>)
    ensures r.Ok? ==> Valid(r.value) && r.value.image == image && r.value.tileNum == tileNum
  {
    if image == [] || !RowsNonEmpty(image) then Err("IndexError")
    else Ok(Tile(image, tileNum, CanonicalizeEdge(image[0]), CanonicalizeEdge(image[|image| - 1]),
                 CanonicalizeEdge(FirstColumn(image)), CanonicalizeEdge(LastColumn(image)), |image[0]|))
  }

  /** `Tile(image, tile_num)` raises IndexError exactly when there are no rows or some row is empty. */
  lemma NewTileErr(image: Image, tileNum: int)
    ensures NewTile(image, tileNum).Err? <==> image == [] || exists k :: 0 <= k < |image| && image[k] == []
    ensures NewTile(image, tileNum).Err? ==> NewTile(image, tileNum).msg == "IndexError"
  {
  }

  /** A tile is determined by its image and number. */
  lemma Determined(a: Tile, b: Tile)
    requires Valid(a) && Valid(b) && a.image == b.image && a.tileNum == b.tileNum
    ensures a == b
  {
  }

  /**
   * The borders, bit by bit: top is row 0 read left to right, bottom the last
   * row, left column 0 read top to bottom, right the last column.
   */
  lemma EdgeBits(t: Tile, i: nat)
    requires Valid(t)
    ensures Bit(t.top, i) == (i < |t.image[0]| && t.image[0][i])
    ensures Bit(t.bottom, i) == (i < |t.image[|t.image| - 1]| && t.image[|t.image| - 1][i])
    ensures Bit(t.left, i) == (i < |t.image| && t.image[i][0])
    ensures Bit(t.right, i) == (i < |t.image| && t.image[i][|t.image[i]| - 1])
  {
    CanonicalBits(t.image[0], i);
    CanonicalBits(t.image[|t.image| - 1], i);
    CanonicalBits(FirstColumn(t.image), i);
    CanonicalBits(LastColumn(t.image), i);
  }

  /** Every row of the tile is `length` long and there are `length` rows. */
  predicate Square(t: Tile) {
    |t.image| == t.length && forall k :: 0 <= k < |t.image| ==> |t.image[k]| == t.length
  }

  /** The rows and columns `rotated_clockwise` reads exist. */
  predicate Covers(image: Image, n: nat) {
    |image| >= n && forall k :: 0 <= k < n ==> |image[k]| >= n
  }

  /** The image `rotated_clockwise` fills in: row y, column x is the old row n-1-x, column y. */
  function RotatedImage(image: Image, n: nat): (r: Image)
    requires Covers(image, n)
  {
    seq(n, y requires 0 <= y < n => seq(n, x requires 0 <= x < n => image[n - 1 - x][y]))
  }

  /** What `rotated_clockwise` returns, IndexError when the image has fewer rows or columns than its first row. */
  function Rotated(t: Tile): (r: Result<Tile>)
    requires Valid(t)
    ensures r.Ok? ==> Valid(r.value)
  {
    if Covers(t.image, t.length) then NewTile(RotatedImage(t.image, t.length), t.tileNum) else Err("IndexError")
  }

  /** `rotated_clockwise`, filling the new rows of a `length` by `length` list column by column. */
  method RotatedClockwise(t: Tile) returns (r: Result<Tile>)
    requires Valid(t)
    ensures r == Rotated(t)
  {
    var n := t.length;
    var src := t.image;
    var image: Image := seq(n, _ => seq(n, _ => false));
    for x := 0 to n
      invariant |image| == n && forall y :: 0 <= y < n ==> |image[y]| == n
      invariant x > 0 ==> n <= |src|
      invariant forall k :: n - x <= k < n ==> n <= |src[k]|
      invariant forall y, x0 :: 0 <= y < n && 0 <= x0 < x ==> image[y][x0] == src[n - 1 - x0][y]
    {
      if n - 1 - x >= |src| || n > |src[n - 1 - x]| {
        return Err("IndexError");
      }
      for y := 0 to n
        invariant |image| == n && forall y1 :: 0 <= y1 < n ==> |image[y1]| == n
        invariant forall y1, x0 :: 0 <= y1 < n && 0 <= x0 < x ==> image[y1][x0] == src[n - 1 - x0][y1]
        invariant forall y1 :: 0 <= y1 < y ==> image[y1][x] == src[n - 1 - x][y1]
      {
        image := image[y := image[y][x := src[n - 1 - x][y]]];
      }
    }
    assert Covers(src, n) by {
      forall k | 0 <= k < n ensures |src[k]| >= n {
        assert src[n - 1 - (n - 1 - k)] == src[k];
      }
    }
    forall y | 0 <= y < n ensures image[y] == RotatedImage(src, n)[y] {
      assert forall x :: 0 <= x < n ==> image[y][x] == RotatedImage(src, n)[y][x];
    }
    assert image == RotatedImage(src, n);
    r := NewTile(image, t.tileNum);
  }

  /** `flipped_y`: every row reversed. */
  function Flipped(t: Tile): (r: Tile)
    requires Valid(t)
    ensures Valid(r) && r.tileNum == t.tileNum && |r.image| == |t.image|
    ensures forall k :: 0 <= k < |t.image| ==> r.image[k] == Reverse(t.image[k])
  {
    NewTile(seq(|t.image|, k requires 0 <= k < |t.image| => Reverse(t.image[k])), t.tileNum).value
  }

  /** The Orientation enum: four turns, each with or without a flip first. */
  datatype Orientation = Normal | Rot90 | Rot180 | Rot270 | Flip | FlipRot90 | FlipRot180 | FlipRot270

  /** One more `.rotated_clockwise()` in a chain of calls. */
  function Turn(r: Result<Tile>): (s: Result<Tile>)
    requires r.Ok? ==> Valid(r.value)
    ensures s.Ok? ==> Valid(s.value)
  {
    if r.Err? then r else Rotated(r.value)
  }

  /** `get_orientation`: the chain of turns and flips each orientation names. */
  function GetOrientation(t: Tile, o: Orientation): (r: Result<Tile>)
    requires Valid(t)
    ensures r.Ok? ==> Valid(r.value)
  {
    match o
    case Normal => Ok(t)
    case Rot90 => Rotated(t)
    case Rot180 => Turn(Rotated(t))
    case Rot270 => Turn(Turn(Rotated(t)))
    case Flip => Ok(Flipped(t))
    case FlipRot90 => Rotated(Flipped(t))
    case FlipRot180 => Turn(Rotated(Flipped(t)))
    case FlipRot270 => Turn(Turn(Rotated(Flipped(t))))
  }

  /** A square tile turns into a square tile of the same size and number, cell (y, x) coming from (n-1-x, y). */
  lemma RotatedSquare(t: Tile)
    requires Valid(t) && Square(t)
    ensures Rotated(t).Ok?
    ensures var r := Rotated(t).value;
      Square(r) && r.length == t.length && r.tileNum == t.tileNum
      && forall y, x :: 0 <= y < t.length && 0 <= x < t.length ==> r.image[y][x] == t.image[t.length - 1 - x][y]
  {
  }

  lemma RotatedTwice(t: Tile)
    requires Valid(t) && Square(t)
    ensures Rotated(t).Ok? && Rotated(Rotated(t).value).Ok?
    ensures var r := Rotated(Rotated(t).value).value; var n := t.length;
      Square(r) && r.length == n && r.tileNum == t.tileNum
      && forall y, x :: 0 <= y < n && 0 <= x < n ==> r.image[y][x] == t.image[n - 1 - y][n - 1 - x]
  {
    RotatedSquare(t);
    RotatedSquare(Rotated(t).value);
  }

  /** Four clockwise turns give back the same square tile. */
  lemma RotateFour(t: Tile)
    requires Valid(t) && Square(t)
    ensures Turn(Turn(Turn(Rotated(t)))) == Ok(t)
  {
    RotatedTwice(t);
    var r2 := Rotated(Rotated(t).value).value;
    RotatedTwice(r2);
    var r4 := Rotated(Rotated(r2).value).value;
    assert Turn(Turn(Turn(Rotated(t)))) == Ok(r4);
    forall y | 0 <= y < t.length ensures r4.image[y] == t.image[y] {
      assert forall x :: 0 <= x < t.length ==> r4.image[y][x] == t.image[y][x];
    }
    Determined(r4, t);
  }

  lemma ReverseReverse<T>(s: seq<T>)
    ensures Reverse(Reverse(s)) == s
  {
  }

  lemma FlipTwiceImage(t: Tile, f1: Tile, f2: Tile)
    requires |f1.image| == |t.image| && forall k :: 0 <= k < |t.image| ==> f1.image[k] == Reverse(t.image[k])
    requires |f2.image| == |f1.image| && forall k :: 0 <= k < |f1.image| ==> f2.image[k] == Reverse(f1.image[k])
    ensures f2.image == t.image
  {
    forall k | 0 <= k < |t.image| ensures f2.image[k] == t.image[k] {
      ReverseReverse(t.image[k]);
    }
  }

  /** Flipping twice gives back the same tile. */
  lemma FlipTwice(t: Tile)
    requires Valid(t)
    ensures Flipped(Flipped(t)) == t
  {
    FlipTwiceImage(t, Flipped(t), Flipped(Flipped(t)));
    Determined(Flipped(Flipped(t)), t);
  }

  /** A flip reverses the top and bottom borders and swaps left with right. */
  lemma FlippedEdges(t: Tile)
    requires Valid(t)
    ensures var f := Flipped(t);
      f.top == Reversed(t.top, t.length)
      && f.bottom == Reversed(t.bottom, |t.image[|t.image| - 1]|)
      && f.left == t.right && f.right == t.left
      && f.length == t.length
  {
    var f := Flipped(t);
    ReversedEdge(t.image[0]);
    ReversedEdge(t.image[|t.image| - 1]);
    assert FirstColumn(f.image) == LastColumn(t.image);
    assert LastColumn(f.image) == FirstColumn(t.image);
  }

  /**
   * A clockwise turn brings the left border, reversed, to the top, the top to
   * the right, the right border, reversed, to the bottom, and the bottom to the left.
   */
  lemma RotatedEdges(t: Tile)
    requires Valid(t) && Square(t)
    ensures Rotated(t).Ok?
    ensures var r := Rotated(t).value; var n := t.length;
      r.top == Reversed(t.left, n) && r.right == t.top
      && r.bottom == Reversed(t.right, n) && r.left == t.bottom
  {
    RotatedSquare(t);
    var r := Rotated(t).value;
    var n := t.length;
    assert r.image[0] == Reverse(FirstColumn(t.image));
    assert r.image[n - 1] == Reverse(LastColumn(t.image));
    assert LastColumn(r.image) == t.image[0];
    assert FirstColumn(r.image) == t.image[n - 1];
    ReversedEdge(FirstColumn(t.image));
    ReversedEdge(LastColumn(t.image));
  }

  /** One line of `as_image`: '#' for true, '.' for false, then a newline. */
  function RowText(row: seq<bool>): (line: string)
    ensures |line| == |row| + 1 && line[|row|] == '\n'
    ensures forall i :: 0 <= i < |row| ==> line[i] == if row[i] then '#' else '.'
  {
    seq(|row|, i requires 0 <= i < |row| => if row[i] then '#' else '.') + "\n"
  }

  function ImageText(image: Image): string {
    if image == [] then "" else RowText(image[0]) + ImageText(image[1..])
  }

  /** `as_image`. */
  function AsImage(t: Tile): string {
    ImageText(t.image)
  }

  /** The tile of the rotate-and-flip test (20/20.py:220-225). */
  const SampleImage: Image := [[false, false, true, true], [true, true, false, false], [true, false, true, false], [false, true, false, true]]

  lemma ImageText4(image: Image)
    requires |image| == 4
    ensures ImageText(image) == RowText(image[0]) + RowText(image[1]) + RowText(image[2]) + RowText(image[3])
  {
    var i1 := image[1..];
    var i2 := i1[1..];
    var i3 := i2[1..];
    assert i3[1..] == [];
    assert ImageText(i3) == RowText(image[3]);
    assert ImageText(i2) == RowText(image[2]) + RowText(image[3]);
    assert ImageText(i1) == RowText(image[1]) + (RowText(image[2]) + RowText(image[3]));
  }

  lemma SampleText()
    ensures ImageText(SampleImage) == "..##\n##..\n#.#.\n.#.#\n"
  {
    ImageText4(SampleImage);
    assert RowText(SampleImage[0]) == "..##\n";
    assert RowText(SampleImage[1]) == "##..\n";
    assert RowText(SampleImage[2]) == "#.#.\n";
    assert RowText(SampleImage[3]) == ".#.#\n";
  }

  /** The images of the test, read off its pictures. */
  const Rot90Image: Image := [[false, true, true, false], [true, false, true, false], [false, true, false, true], [true, false, false, true]]
  const Rot180Image: Image := [[true, false, true, false], [false, true, false, true], [false, false, true, true], [true, true, false, false]]
  const FlippedImage: Image := [[true, true, false, false], [false, false, true, true], [false, true, false, true], [true, false, true, false]]
  const FlipRot270Image: Image := [[false, true, true, false], [false, true, false, true], [true, false, true, false], [true, false, false, true]]

  /** A four by four turn, cell by cell. */
  lemma RotatedImage4(image: Image)
    requires Covers(image, 4)
    ensures RotatedImage(image, 4) ==
      [[image[3][0], image[2][0], image[1][0], image[0][0]],
       [image[3][1], image[2][1], image[1][1], image[0][1]],
       [image[3][2], image[2][2], image[1][2], image[0][2]],
       [image[3][3], image[2][3], image[1][3], image[0][3]]]
  {
    var r := RotatedImage(image, 4);
    assert r[0] == [image[3][0], image[2][0], image[1][0], image[0][0]];
    assert r[1] == [image[3][1], image[2][1], image[1][1], image[0][1]];
    assert r[2] == [image[3][2], image[2][2], image[1][2], image[0][2]];
    assert r[3] == [image[3][3], image[2][3], image[1][3], image[0][3]];
  }

  lemma SampleRotatedImages()
    ensures RotatedImage(SampleImage, 4) == Rot90Image
    ensures RotatedImage(Rot90Image, 4) == Rot180Image
  {
    RotatedImage4(SampleImage);
    RotatedImage4(Rot90Image);
  }

  const FlipRot90Image: Image := [[true, false, false, true], [false, true, false, true], [true, false, true, false], [false, true, true, false]]
  const FlipRot180Image: Image := [[false, true, false, true], [true, false, true, false], [true, true, false, false], [false, false, true, true]]

  lemma FlippedRotatedImages()
    ensures RotatedImage(FlippedImage, 4) == FlipRot90Image
    ensures RotatedImage(FlipRot90Image, 4) == FlipRot180Image
    ensures RotatedImage(FlipRot180Image, 4) == FlipRot270Image
  {
    RotatedImage4(FlippedImage);
    RotatedImage4(FlipRot90Image);
    RotatedImage4(FlipRot180Image);
  }

  /** The test's `Tile(..., 1234)`. */
  predicate IsSample(t: Tile) {
    NewTile(SampleImage, 1234) == Ok(t)
  }

  lemma SampleTileShape(t: Tile)
    requires IsSample(t)
    ensures Valid(t) && t.image == SampleImage && t.length == 4 && Square(t)
  {
  }

  /** A turn of a valid square tile is the tile of the turned image. */
  lemma TurnIs(t: Tile, image: Image)
    requires Valid(t) && Square(t) && RotatedImage(t.image, t.length) == image
    ensures Rotated(t).Ok? && Rotated(t).value.image == image
    ensures Square(Rotated(t).value) && Rotated(t).value.length == t.length
  {
    RotatedSquare(t);
  }

  /** The rotated pictures of the test (20/20.py:235-253). */
  lemma SampleTurns(t: Tile)
    requires IsSample(t)
    ensures GetOrientation(t, Normal) == Ok(t)
    ensures GetOrientation(t, Rot90).Ok? && GetOrientation(t, Rot90).value.image == Rot90Image
    ensures GetOrientation(t, Rot180).Ok? && GetOrientation(t, Rot180).value.image == Rot180Image
  {
    SampleTileShape(t);
    SampleRotatedImages();
    TurnIs(t, Rot90Image);
    var r1 := Rotated(t).value;
    TurnIs(r1, Rot180Image);
  }

  lemma FlippedRows()
    ensures seq(4, k requires 0 <= k < 4 => Reverse(SampleImage[k])) == FlippedImage
  {
    assert Reverse(SampleImage[0]) == FlippedImage[0];
    assert Reverse(SampleImage[1]) == FlippedImage[1];
    assert Reverse(SampleImage[2]) == FlippedImage[2];
    assert Reverse(SampleImage[3]) == FlippedImage[3];
  }

  lemma SampleFlipped(t: Tile)
    requires IsSample(t)
    ensures Valid(Flipped(t)) && Square(Flipped(t)) && Flipped(t).image == FlippedImage
  {
    SampleTileShape(t);
    FlippedRows();
    FlippedMins(t);
  }

  lemma FlipTurns(f: Tile)
    requires Valid(f) && Square(f) && f.image == FlippedImage
    ensures Turn(Turn(Rotated(f))).Ok? && Turn(Turn(Rotated(f))).value.image == FlipRot270Image
  {
    FlippedRotatedImages();
    TurnIs(f, FlipRot90Image);
    var f1 := Rotated(f).value;
    TurnIs(f1, FlipRot180Image);
    var f2 := Rotated(f1).value;
    TurnIs(f2, FlipRot270Image);
  }

  /** The flipped pictures of the test (20/20.py:255-273). */
  lemma SampleFlips(t: Tile)
    requires IsSample(t)
    ensures GetOrientation(t, Flip).Ok? && GetOrientation(t, Flip).value.image == FlippedImage
    ensures GetOrientation(t, FlipRot270).Ok? && GetOrientation(t, FlipRot270).value.image == FlipRot270Image
  {
    SampleFlipped(t);
    SampleFlipRot270(t, Flipped(t));
  }

  lemma SampleFlipRot270(t: Tile, f: Tile)
    requires Valid(t) && f == Flipped(t) && Valid(f) && Square(f) && f.image == FlippedImage
    ensures GetOrientation(t, FlipRot270).Ok? && GetOrientation(t, FlipRot270).value.image == FlipRot270Image
  {
    FlipTurns(f);
  }

  lemma FourRowsText(image: Image, a: string, b: string, c: string, d: string)
    requires |image| == 4
    requires RowText(image[0]) == a && RowText(image[1]) == b && RowText(image[2]) == c && RowText(image[3]) == d
    ensures ImageText(image) == a + b + c + d
  {
    ImageText4(image);
  }

  /** The pictures of the test as `as_image` prints them. */
  lemma Rot90Text()
    ensures ImageText(Rot90Image) == ".##.\n#.#.\n.#.#\n#..#\n"
  {
    FourRowsText(Rot90Image, ".##.\n", "#.#.\n", ".#.#\n", "#..#\n");
  }

  lemma Rot180Text()
    ensures ImageText(Rot180Image) == "#.#.\n.#.#\n..##\n##..\n"
  {
    FourRowsText(Rot180Image, "#.#.\n", ".#.#\n", "..##\n", "##..\n");
  }

  lemma FlippedText()
    ensures ImageText(FlippedImage) == "##..\n..##\n.#.#\n#.#.\n"
  {
    FourRowsText(FlippedImage, "##..\n", "..##\n", ".#.#\n", "#.#.\n");
  }

  lemma FlipRot270Text()
    ensures ImageText(FlipRot270Image) == ".##.\n.#.#\n#.#.\n#..#\n"
  {
    FourRowsText(FlipRot270Image, ".##.\n", ".#.#\n", "#.#.\n", "#..#\n");
  }

  /** An orientation whose image is known prints as that image's text. */
  lemma PrintsAs(t: Tile, o: Orientation, image: Image, text: string)
    requires Valid(t) && GetOrientation(t, o).Ok? && GetOrientation(t, o).value.image == image && ImageText(image) == text
    ensures GetOrientation(t, o).Ok? && AsImage(GetOrientation(t, o).value) == text
  {
  }

  /** The assertions of the rotate-and-flip test (20/20.py:219-273). */
  lemma SampleOrientations(t: Tile)
    requires IsSample(t)
    ensures AsImage(t) == "..##\n##..\n#.#.\n.#.#\n"
    ensures GetOrientation(t, Normal) == Ok(t)
    ensures GetOrientation(t, Rot90).Ok? && AsImage(GetOrientation(t, Rot90).value) == ".##.\n#.#.\n.#.#\n#..#\n"
    ensures GetOrientation(t, Rot180).Ok? && AsImage(GetOrientation(t, Rot180).value) == "#.#.\n.#.#\n..##\n##..\n"
    ensures GetOrientation(t, Flip).Ok? && AsImage(GetOrientation(t, Flip).value) == "##..\n..##\n.#.#\n#.#.\n"
    ensures GetOrientation(t, FlipRot270).Ok? && AsImage(GetOrientation(t, FlipRot270).value) == ".##.\n.#.#\n#.#.\n#..#\n"
  {
    SampleTileShape(t);
    SampleText();
    SampleTurns(t);
    SampleFlips(t);
    Rot90Text();
    PrintsAs(t, Rot90, Rot90Image, ".##.\n#.#.\n.#.#\n#..#\n");
    Rot180Text();
    PrintsAs(t, Rot180, Rot180Image, "#.#.\n.#.#\n..##\n##..\n");
    FlippedText();
    PrintsAs(t, Flip, FlippedImage, "##..\n..##\n.#.#\n#.#.\n");
    FlipRot270Text();
    PrintsAs(t, FlipRot270, FlipRot270Image, ".##.\n.#.#\n#.#.\n#..#\n");
  }

  // ---------------------------------------------------------------- classifying tiles

  /** `get_edge_min(edge, tile.length)` for each of `tile.edges()`. */
  function TileMins(t: Tile): (ms: seq<nat>)
    ensures |ms| == 4
  {
    [EdgeMin(t.top, t.length), EdgeMin(t.bottom, t.length), EdgeMin(t.left, t.length), EdgeMin(t.right, t.length)]
  }

  lemma BordersBelow(t: Tile)
    requires Valid(t) && Square(t)
    ensures t.top < Py.Pow2(t.length) && t.bottom < Py.Pow2(t.length)
    ensures t.left < Py.Pow2(t.length) && t.right < Py.Pow2(t.length)
  {
    CanonicalBelow(t.image[0]);
    CanonicalBelow(t.image[|t.image| - 1]);
    CanonicalBelow(FirstColumn(t.image));
    CanonicalBelow(LastColumn(t.image));
  }

  lemma RotatedMins(t: Tile)
    requires Valid(t) && Square(t)
    ensures Rotated(t).Ok? && Square(Rotated(t).value) && Rotated(t).value.tileNum == t.tileNum
    ensures multiset(TileMins(Rotated(t).value)) == multiset(TileMins(t))
  {
    RotatedSquare(t);
    RotatedEdges(t);
    BordersBelow(t);
    EdgeMinReversed(t.left, t.length);
    EdgeMinReversed(t.right, t.length);
    var r := Rotated(t).value;
    var ms := TileMins(t);
    assert r.length == t.length;
    assert EdgeMin(r.top, r.length) == ms[2];
    assert EdgeMin(r.bottom, r.length) == ms[3];
    assert TileMins(r) == [ms[2], ms[3], ms[1], ms[0]];
    FourPermuted(ms);
  }

  lemma FourPermuted(ms: seq<nat>)
    requires |ms| == 4
    ensures multiset([ms[2], ms[3], ms[1], ms[0]]) == multiset(ms)
  {
    assert ms == [ms[0], ms[1], ms[2], ms[3]];
  }

  lemma FlippedMins(t: Tile)
    requires Valid(t) && Square(t)
    ensures Square(Flipped(t)) && Flipped(t).tileNum == t.tileNum
    ensures multiset(TileMins(Flipped(t))) == multiset(TileMins(t))
  {
    FlippedEdges(t);
    BordersBelow(t);
    EdgeMinReversed(t.top, t.length);
    EdgeMinReversed(t.bottom, t.length);
    var ms := TileMins(t);
    assert TileMins(Flipped(t)) == [ms[0], ms[1], ms[3], ms[2]];
  }

  /** `r` is a square tile with the number and border minima of `t`. */
  predicate Kept(t: Tile, r: Result<Tile>) {
    r.Ok? && Square(r.value) && r.value.tileNum == t.tileNum && multiset(TileMins(r.value)) == multiset(TileMins(t))
  }

  /** Turning a kept square tile once more keeps it. */
  lemma TurnKept(t: Tile, r: Result<Tile>)
    requires Kept(t, r) && Valid(r.value)
    ensures Kept(t, Turn(r))
  {
    RotatedMins(r.value);
  }

  /**
   * Every orientation of a square tile exists, keeps the tile number and has
   * the same border minima: how many unmatched borders a tile has does not
   * depend on how it is turned.
   */
  lemma OrientationMins(t: Tile, o: Orientation)
    requires Valid(t) && Square(t)
    ensures Kept(t, GetOrientation(t, o))
  {
    FlippedMins(t);
    var f := Flipped(t);
    RotatedMins(t);
    RotatedMins(f);
    match o
    case Normal =>
    case Rot90 =>
    case Rot180 => TurnKept(t, Rotated(t));
    case Rot270 => TurnKept(t, Rotated(t)); TurnKept(t, Turn(Rotated(t)));
    case Flip =>
    case FlipRot90 =>
    case FlipRot180 => TurnKept(t, Rotated(f));
    case FlipRot270 => TurnKept(t, Rotated(f)); TurnKept(t, Turn(Rotated(f)));
  }

  /** `tiles.items()`, in the dict's order. */
  type Items = seq<(int, Tile)>

  /** Every border minimum of the tiles, tile by tile in the dict's order. */
  function AllMins(items: Items): (ms: seq<nat>)
    ensures |ms| == 4 * |items|
  {
    if items == [] then [] else AllMins(items[..|items| - 1]) + TileMins(items[|items| - 1].1)
  }

  /** One update of `edge_counts`: a new minimum counts 1, a known one goes up by 1. */
  function Bump(counts: map<nat, nat>, m: nat): map<nat, nat> {
    if m !in counts then counts[m := 1] else counts[m := counts[m] + 1]
  }

  /** `edge_counts` after counting the minima `ms` in order. */
  function CountMins(ms: seq<nat>): map<nat, nat> {
    if ms == [] then map[] else Bump(CountMins(ms[..|ms| - 1]), ms[|ms| - 1])
  }

  /** `edge_counts` holds exactly the minima that occur, each with its number of occurrences. */
  lemma {:induction false} CountMinsCounts(ms: seq<nat>)
    ensures forall m :: m in CountMins(ms) <==> m in ms
    ensures forall m :: m in CountMins(ms) ==> CountMins(ms)[m] == multiset(ms)[m]
  {
    if ms != [] {
      var init, l := ms[..|ms| - 1], ms[|ms| - 1];
      CountMinsCounts(init);
      assert ms == init + [l];
      assert multiset(ms) == multiset(init) + multiset{l};
    }
  }

  lemma {:induction false} AllMinsHas(items: Items, k: nat, j: nat)
    requires k < |items| && j < 4
    ensures TileMins(items[k].1)[j] in AllMins(items)
  {
    var init := items[..|items| - 1];
    if k == |items| - 1 {
      assert AllMins(items)[4 * |init| + j] == TileMins(items[k].1)[j];
    } else {
      AllMinsHas(init, k, j);
    }
  }

  /** Every border minimum of `items` has an entry in `counts`. */
  predicate Covered(items: Items, counts: map<nat, nat>) {
    forall k, j :: 0 <= k < |items| && 0 <= j < 4 ==> TileMins(items[k].1)[j] in counts
  }

  /** No `edge_counts[...]` lookup of `sort_tiles` raises KeyError. */
  lemma CountsCover(items: Items)
    ensures Covered(items, CountMins(AllMins(items)))
  {
    CountMinsCounts(AllMins(items));
    forall k, j | 0 <= k < |items| && 0 <= j < 4 ensures TileMins(items[k].1)[j] in CountMins(AllMins(items)) {
      AllMinsHas(items, k, j);
    }
  }

  /** `sum(edge_counts[m] == 1 for m in ms)`, adding the minima in order. */
  function OnesAmong(counts: map<nat, nat>, ms: seq<nat>): (u: nat)
    requires forall j :: 0 <= j < |ms| ==> ms[j] in counts
    ensures u <= |ms|
  {
    if ms == [] then 0 else OnesAmong(counts, ms[..|ms| - 1]) + (if counts[ms[|ms| - 1]] == 1 then 1 else 0)
  }

  /** `unmatched_edges`: how many of the tile's borders occur only once. */
  function Unmatched(counts: map<nat, nat>, t: Tile): nat
    requires forall j :: 0 <= j < 4 ==> TileMins(t)[j] in counts
  {
    OnesAmong(counts, TileMins(t))
  }

  /** `TilesSorted`. */
  datatype TilesSorted = TilesSorted(corners: set<int>, edges: set<int>, middle: set<int>)

  /** The second loop of `sort_tiles`: 0 unmatched borders make a middle piece, 1 an edge piece, 2 a corner. */
  function Classify(items: Items, counts: map<nat, nat>): TilesSorted
    requires Covered(items, counts)
  {
    if items == [] then TilesSorted({}, {}, {})
    else
      var s := Classify(items[..|items| - 1], counts);
      var num := items[|items| - 1].0;
      var u := Unmatched(counts, items[|items| - 1].1);
      if u == 0 then s.(middle := s.middle + {num})
      else if u == 1 then s.(edges := s.edges + {num})
      else if u == 2 then s.(corners := s.corners + {num})
      else s
  }

  /** Some entry of `items` has number `num` and `u` unmatched borders. */
  predicate HasClass(items: Items, counts: map<nat, nat>, num: int, u: nat)
    requires Covered(items, counts)
  {
    exists k :: 0 <= k < |items| && items[k].0 == num && Unmatched(counts, items[k].1) == u
  }

  /** Each set holds exactly the numbers of the tiles with that many unmatched borders. */
  lemma {:induction false} ClassifyMembers(items: Items, counts: map<nat, nat>, num: int)
    requires Covered(items, counts)
    ensures num in Classify(items, counts).middle <==> HasClass(items, counts, num, 0)
    ensures num in Classify(items, counts).edges <==> HasClass(items, counts, num, 1)
    ensures num in Classify(items, counts).corners <==> HasClass(items, counts, num, 2)
  {
    if items != [] {
      var init := items[..|items| - 1];
      ClassifyMembers(init, counts, num);
      forall u: nat ensures HasClass(items, counts, num, u) <==>
        HasClass(init, counts, num, u) || (items[|items| - 1].0 == num && Unmatched(counts, items[|items| - 1].1) == u)
      {
        if HasClass(items, counts, num, u) {
          var k :| 0 <= k < |items| && items[k].0 == num && Unmatched(counts, items[k].1) == u;
          if k < |init| {
            assert init[k] == items[k];
          }
        }
        if HasClass(init, counts, num, u) {
          var k :| 0 <= k < |init| && init[k].0 == num && Unmatched(counts, init[k].1) == u;
          assert items[k] == init[k];
        }
      }
    }
  }

  /** Every border minimum occurs once or twice, as `sort_tiles` asserts. */
  predicate OnceOrTwice(counts: map<nat, nat>) {
    forall m :: m in counts ==> counts[m] == 1 || counts[m] == 2
  }

  /** The three sets `sort_tiles` fills in. */
  function Sorted(items: Items): TilesSorted {
    CountsCover(items);
    Classify(items, CountMins(AllMins(items)))
  }

  /** What `sort_tiles` returns; the two size checks on `math.sqrt` are not part of it. */
  function SortedTiles(items: Items): Result<(TilesSorted, map<nat, nat>)> {
    var counts := CountMins(AllMins(items));
    if !OnceOrTwice(counts) then Err("AssertionError")
    else
      var s := Sorted(items);
      if |s.corners| != 4 then Err("AssertionError") else Ok((s, counts))
  }

  /** Each minimum occurs once or twice in `ms`. */
  predicate Paired(ms: seq<nat>) {
    forall m :: m in ms ==> multiset(ms)[m] == 1 || multiset(ms)[m] == 2
  }

  /**
   * `sort_tiles` succeeds exactly when every border minimum occurs once or
   * twice among all borders and four tiles have two unmatched borders;
   * otherwise an assertion fails.
   */
  lemma SortedTilesOk(items: Items)
    ensures SortedTiles(items).Ok? <==> Paired(AllMins(items)) && |Sorted(items).corners| == 4
    ensures SortedTiles(items).Err? ==> SortedTiles(items).msg == "AssertionError"
  {
    var ms := AllMins(items);
    CountMinsCounts(ms);
    if Paired(ms) {
      assert OnceOrTwice(CountMins(ms));
    }
    if OnceOrTwice(CountMins(ms)) {
      forall m | m in ms ensures multiset(ms)[m] == 1 || multiset(ms)[m] == 2 {
        assert m in CountMins(ms);
      }
    }
  }

  /**
   * The counts `sort_tiles` returns are the numbers of occurrences of the
   * border minima, and each set holds the tiles with that many unmatched borders.
   */
  lemma SortedTilesContents(items: Items, num: int)
    requires SortedTiles(items).Ok?
    ensures var (s, counts) := SortedTiles(items).value;
      var ms := AllMins(items);
      (forall m :: m in counts <==> m in ms)
      && (forall m :: m in counts ==> counts[m] == multiset(ms)[m])
      && Covered(items, counts)
      && (num in s.corners <==> HasClass(items, counts, num, 2))
      && (num in s.edges <==> HasClass(items, counts, num, 1))
      && (num in s.middle <==> HasClass(items, counts, num, 0))
  {
    CountMinsCounts(AllMins(items));
    CountsCover(items);
    ClassifyMembers(items, CountMins(AllMins(items)), num);
  }

  /** `counts` after counting the minima `ms` in order. */
  function BumpAll(counts: map<nat, nat>, ms: seq<nat>): map<nat, nat> {
    if ms == [] then counts else Bump(BumpAll(counts, ms[..|ms| - 1]), ms[|ms| - 1])
  }

  lemma {:induction false} CountMinsAppend(before: seq<nat>, ms: seq<nat>)
    ensures CountMins(before + ms) == BumpAll(CountMins(before), ms)
  {
    if ms == [] {
      assert before + ms == before;
    } else {
      var init := ms[..|ms| - 1];
      CountMinsAppend(before, init);
      assert (before + ms)[..|before + ms| - 1] == before + init;
    }
  }

  /** The inner loop of the first loop of `sort_tiles`: one tile's four borders counted. */
  method CountTile(counts: map<nat, nat>, t: Tile) returns (c: map<nat, nat>)
    ensures c == BumpAll(counts, TileMins(t))
  {
    var edges := t.Edges();
    c := counts;
    for j := 0 to 4
      invariant c == BumpAll(counts, TileMins(t)[..j])
    {
      var m := GetEdgeMin(edges[j], t.length);
      assert m == TileMins(t)[j];
      assert TileMins(t)[..j + 1][..j] == TileMins(t)[..j];
      if m !in c {
        c := c[m := 1];
      } else {
        c := c[m := c[m] + 1];
      }
    }
    assert TileMins(t)[..4] == TileMins(t);
  }

  /** The first loop of `sort_tiles`. */
  method CountEdges(items: Items) returns (counts: map<nat, nat>)
    ensures counts == CountMins(AllMins(items))
  {
    counts := map[];
    for i := 0 to |items|
      invariant counts == CountMins(AllMins(items[..i]))
    {
      CountMinsAppend(AllMins(items[..i]), TileMins(items[i].1));
      counts := CountTile(counts, items[i].1);
      assert items[..i + 1][..i] == items[..i];
    }
    assert items[..|items|] == items;
  }

  /** `unmatched_edges` for one tile, summed border by border. */
  method CountUnmatched(counts: map<nat, nat>, t: Tile) returns (unmatched: nat)
    requires forall j :: 0 <= j < 4 ==> TileMins(t)[j] in counts
    ensures unmatched == Unmatched(counts, t)
  {
    var edges := t.Edges();
    unmatched := 0;
    for j := 0 to 4
      invariant unmatched == OnesAmong(counts, TileMins(t)[..j])
    {
      var m := GetEdgeMin(edges[j], t.length);
      assert m == TileMins(t)[j];
      assert TileMins(t)[..j + 1][..j] == TileMins(t)[..j];
      if counts[m] == 1 {
        unmatched := unmatched + 1;
      }
    }
    assert TileMins(t)[..4] == TileMins(t);
  }

  /** The second loop of `sort_tiles`. */
  method ClassifyTiles(items: Items, counts: map<nat, nat>) returns (sorted: TilesSorted)
    requires Covered(items, counts)
    ensures sorted == Classify(items, counts)
  {
    sorted := TilesSorted({}, {}, {});
    for i := 0 to |items|
      invariant sorted == Classify(items[..i], counts)
    {
      var (num, t) := items[i];
      var unmatched := CountUnmatched(counts, t);
      assert items[..i + 1][..i] == items[..i];
      if unmatched == 0 {
        sorted := sorted.(middle := sorted.middle + {num});
      } else if unmatched == 1 {
        sorted := sorted.(edges := sorted.edges + {num});
      } else if unmatched == 2 {
        sorted := sorted.(corners := sorted.corners + {num});
      }
    }
    assert items[..|items|] == items;
  }

  /** `sort_tiles`. */
  method SortTiles(items: Items) returns (r: Result<(TilesSorted, map<nat, nat>)>)
    ensures r == SortedTiles(items)
  {
    var counts := CountEdges(items);
    if exists m :: m in counts && counts[m] != 1 && counts[m] != 2 {
      return Err("AssertionError");
    }
    CountsCover(items);
    var sorted := ClassifyTiles(items, counts);
    if |sorted.corners| != 4 {
      return Err("AssertionError");
    }
    r := Ok((sorted, counts));
  }

  // ---------------------------------------------------------------- reading the tiles

  /** The state of `parse_input`'s loop: the tiles so far, the open tile's number and its rows. */
  datatype Reading = Reading(tiles: Items, tileNum: Option<int>, image: Image)

  /** `tiles[k] = v`: a new key goes last, an existing one keeps its place. */
  function Put(items: Items, k: int, v: Tile): (r: Items)
    ensures |r| == |items| || |r| == |items| + 1
  {
    if items == [] then [(k, v)]
    else if items[0].0 == k then [(k, v)] + items[1..]
    else [items[0]] + Put(items[1..], k, v)
  }

  /** A new number is added after every tile read so far. */
  lemma {:induction false} PutNew(items: Items, k: int, v: Tile)
    requires forall j :: 0 <= j < |items| ==> items[j].0 != k
    ensures Put(items, k, v) == items + [(k, v)]
  {
    if items != [] {
      PutNew(items[1..], k, v);
    }
  }

  /** A number already present has its tile replaced at its first place. */
  lemma {:induction false} PutExisting(items: Items, k: int, v: Tile, j: nat)
    requires j < |items| && items[j].0 == k
    requires forall i :: 0 <= i < j ==> items[i].0 != k
    ensures Put(items, k, v) == items[j := (k, v)]
  {
    if j > 0 {
      PutExisting(items[1..], k, v, j - 1);
    }
  }

  /** `int(''.join(itertools.takewhile(str.isdigit, line.split()[1])))`. */
  function HeaderNum(line: string): Result<int> {
    var words := Py.SplitWhitespace(line);
    if |words| < 2 then Err("IndexError")
    else
      var digits := words[1][..Py.DigitsEnd(words[1], 0)];
      match Py.ParseInt(digits)
      case None => Err("ValueError")
      case Some(n) => Ok(n)
  }

  /** `[c == '#' for c in line.rstrip()]`. */
  function RowOf(text: string): (row: seq<bool>)
    ensures |row| == |text| && forall i :: 0 <= i < |text| ==> row[i] == (text[i] == '#')
  {
    seq(|text|, i requires 0 <= i < |text| => text[i] == '#')
  }

  /**
   * One line of `parse_input`: a blank line closes the open tile (a tile
   * without a header is `Tile([], None)`, whose `image[0]` raises IndexError),
   * the first line of a tile is its header, any other a row.
   */
  function Step(st: Reading, line: string): Result<Reading> {
    if Py.IsSpace(line) then
      match st.tileNum
      case None => Err("IndexError")
      case Some(num) =>
        var t :- NewTile(st.image, num);
        Ok(Reading(Put(st.tiles, num, t), None, []))
    else if st.tileNum.None? then
      var num :- HeaderNum(line);
      Ok(Reading(st.tiles, Some(num), st.image))
    else Ok(Reading(st.tiles, st.tileNum, st.image + [RowOf(Py.RStrip(line))]))
  }

  function ReadLines(lines: seq<string>): Result<Reading> {
    if lines == [] then Ok(Reading([], None, []))
    else
      var st :- ReadLines(lines[..|lines| - 1]);
      Step(st, lines[|lines| - 1])
  }

  /** What `parse_input` returns: the tiles, or the first error; a tile left open with rows fails the final assertion. */
  function ParsedTiles(lines: seq<string>): Result<Items> {
    var st :- ReadLines(lines);
    if st.image != [] then Err("AssertionError") else Ok(st.tiles)
  }

  /** `parse_input`, with its loop over the lines. */
  method ParseInput(lines: seq<string>) returns (r: Result<Items>)
    ensures r == ParsedTiles(lines)
  {
    var tiles: Items := [];
    var tileNum: Option<int> := None;
    var image: Image := [];
    for i := 0 to |lines|
      invariant ReadLines(lines[..i]) == Ok(Reading(tiles, tileNum, image))
    {
      var line := lines[i];
      assert lines[..i + 1][..i] == lines[..i];
      if Py.IsSpace(line) {
        if tileNum.None? {
          ReadLinesErr(lines, i + 1);
          return Err("IndexError");
        }
        var t := NewTile(image, tileNum.value);
        if t.Err? {
          ReadLinesErr(lines, i + 1);
          return Err(t.msg);
        }
        tiles := Put(tiles, tileNum.value, t.value);
        tileNum := None;
        image := [];
      } else if tileNum.None? {
        var num := HeaderNum(line);
        if num.Err? {
          ReadLinesErr(lines, i + 1);
          return Err(num.msg);
        }
        tileNum := Some(num.value);
      } else {
        image := image + [RowOf(Py.RStrip(line))];
      }
    }
    assert lines[..|lines|] == lines;
    if image != [] {
      return Err("AssertionError");
    }
    r := Ok(tiles);
  }

  /** An error on a line ends the reading with that error. */
  lemma {:induction false} ReadLinesErr(lines: seq<string>, n: nat)
    requires 0 < n <= |lines| && ReadLines(lines[..n]).Err?
    ensures ParsedTiles(lines) == Err(ReadLines(lines[..n]).msg)
    decreases |lines| - n
  {
    if n == |lines| {
      assert lines[..n] == lines;
    } else {
      assert lines[..n + 1] == lines[..n] + [lines[n]];
      ErrorStays(lines[..n], lines[n]);
      ReadLinesErr(lines, n + 1);
    }
  }

  lemma ErrorStays(pre: seq<string>, line: string)
    requires ReadLines(pre).Err?
    ensures ReadLines(pre + [line]) == ReadLines(pre)
  {
    var lines := pre + [line];
    assert lines[..|lines| - 1] == pre;
  }

  /** Between blank lines, rows are only read once a header has given the number. */
  predicate Consistent(st: Reading) {
    st.tileNum.None? ==> st.image == []
  }

  /** Every tile read is a valid tile stored under its own number, and no number is stored twice. */
  predicate WellKeyed(items: Items) {
    (forall k :: 0 <= k < |items| ==> Valid(items[k].1) && items[k].1.tileNum == items[k].0)
    && forall j, k :: 0 <= j < k < |items| ==> items[j].0 != items[k].0
  }

  lemma PutKeyed(items: Items, k: int, v: Tile)
    requires WellKeyed(items) && Valid(v) && v.tileNum == k
    ensures WellKeyed(Put(items, k, v))
  {
    if j :| 0 <= j < |items| && items[j].0 == k {
      PutExisting(items, k, v, j);
    } else {
      PutNew(items, k, v);
    }
  }

  /**
   * What `parse_input` builds is a dict: each number names one tile, the tile
   * with that number, and the open tile's rows never outlive its header.
   */
  lemma {:induction false} ReadLinesKeyed(lines: seq<string>)
    requires ReadLines(lines).Ok?
    ensures WellKeyed(ReadLines(lines).value.tiles) && Consistent(ReadLines(lines).value)
  {
    if lines != [] {
      var init := lines[..|lines| - 1];
      ReadLinesKeyed(init);
      var st := ReadLines(init).value;
      var line := lines[|lines| - 1];
      if Py.IsSpace(line) && st.tileNum.Some? {
        PutKeyed(st.tiles, st.tileNum.value, NewTile(st.image, st.tileNum.value).value);
      }
    }
  }

  /** The tiles `parse_input` returns are valid and keyed by their own numbers. */
  lemma ParsedTilesKeyed(lines: seq<string>)
    requires ParsedTiles(lines).Ok?
    ensures WellKeyed(ParsedTiles(lines).value)
  {
    ReadLinesKeyed(lines);
  }

  // ---------------------------------------------------------------- reading back what `as_image` prints

  /** The header of a tile in the puzzle input. */
  function HeaderLine(n: nat): string {
    "Tile" + (" " + ((Py.NatToString(n) + ":") + "\n"))
  }

  /** `"Tile 2311:".split()` is the word `Tile` and the number with its colon. */
  lemma HeaderWords(n: nat)
    ensures Py.SplitWhitespace(HeaderLine(n)) == ["Tile", Py.NatToString(n) + ":"]
  {
    var d := Py.NatToString(n);
    var w := d + ":";
    assert Py.NoSpace(w) by {
      assert forall j :: 0 <= j < |d| ==> w[j] == d[j] && Py.IsDigit(w[j]);
    }
    var nl: string := "\n";
    assert Py.SplitWhitespace(nl) == [];
    Py.SplitWhitespaceWord(w, nl);
    var t := " " + (w + nl);
    assert (w + nl)[0] == d[0];
    Py.SplitWhitespaceAfterSpace(w + nl);
    var tile: string := "Tile";
    assert Py.NoSpace(tile) by {
      assert |tile| == 4 && tile[0] == 'T' && tile[1] == 'i' && tile[2] == 'l' && tile[3] == 'e';
    }
    Py.SplitWhitespaceWord(tile, t);
  }

  /** The second word's leading digits are the number. */
  lemma HeaderNumWords(line: string, d: string)
    requires d != [] && Py.AllDigits(d) && |Py.SplitWhitespace(line)| >= 2 && Py.SplitWhitespace(line)[1] == d + ":"
    ensures HeaderNum(line) == if Py.ParseInt(d).Some? then Ok(Py.ParseInt(d).value) else Err("ValueError")
  {
    var w := d + ":";
    Py.DigitsEndAt(w, 0, |d|);
    assert w[..|d|] == d;
  }

  /** The number in a header is read back, and a header is not a blank line. */
  lemma HeaderNumLine(n: nat)
    ensures HeaderNum(HeaderLine(n)) == Ok(n) && !Py.IsSpace(HeaderLine(n))
  {
    HeaderWords(n);
    HeaderNumWords(HeaderLine(n), Py.NatToString(n));
    Py.ParseNatToString(n);
    assert HeaderLine(n)[0] == 'T';
  }

  /** The lines `as_image` prints for an image, one per row. */
  function RowLines(image: Image): seq<string> {
    if image == [] then [] else RowLines(image[..|image| - 1]) + [RowText(image[|image| - 1])]
  }

  /** A tile in the puzzle input: its header, its rows and the blank line after it. */
  function TileLines(n: nat, image: Image): seq<string> {
    [HeaderLine(n)] + RowLines(image) + ["\n"]
  }

  /** A printed row is not blank, and reading it gives the row back. */
  lemma ReadRow(row: seq<bool>)
    requires row != []
    ensures !Py.IsSpace(RowText(row)) && RowOf(Py.RStrip(RowText(row))) == row
  {
    var line := RowText(row);
    var body := line[..|row|];
    assert line == body + "\n";
    assert !Py.IsSpaceChar(body[|body| - 1]);
    Py.RStripNewline(body);
    assert !Py.IsSpaceChar(line[0]);
  }

  /** Reading one more line is one more step. */
  lemma ReadLinesSnoc(pre: seq<string>, line: string)
    ensures ReadLines(pre + [line]) == if ReadLines(pre).Err? then Err(ReadLines(pre).msg) else Step(ReadLines(pre).value, line)
  {
    var lines := pre + [line];
    assert lines[..|lines| - 1] == pre;
  }

  /** A printed row adds itself to the open tile. */
  lemma StepRow(st: Reading, row: seq<bool>)
    requires st.tileNum.Some? && row != []
    ensures Step(st, RowText(row)) == Ok(Reading(st.tiles, st.tileNum, st.image + [row]))
  {
    ReadRow(row);
  }

  /** A header opens a tile with that number. */
  lemma StepHeader(tiles: Items, n: nat)
    ensures Step(Reading(tiles, None, []), HeaderLine(n)) == Ok(Reading(tiles, Some(n), []))
  {
    HeaderNumLine(n);
  }

  /** The blank line closes the open tile. */
  lemma StepBlank(tiles: Items, n: nat, image: Image)
    requires NewTile(image, n).Ok?
    ensures Step(Reading(tiles, Some(n), image), "\n") == Ok(Reading(Put(tiles, n, NewTile(image, n).value), None, []))
  {
    assert Py.IsSpace("\n");
  }

  /** Rows after a header are added to the open tile in order. */
  lemma {:induction false} ReadRows(pre: seq<string>, tiles: Items, n: int, image0: Image, image: Image)
    requires ReadLines(pre) == Ok(Reading(tiles, Some(n), image0)) && RowsNonEmpty(image)
    ensures ReadLines(pre + RowLines(image)) == Ok(Reading(tiles, Some(n), image0 + image))
  {
    if image == [] {
      assert pre + RowLines(image) == pre;
      assert image0 + image == image0;
    } else {
      var init := image[..|image| - 1];
      var row := image[|image| - 1];
      ReadRows(pre, tiles, n, image0, init);
      AppendOne(pre, RowLines(init), RowText(row));
      ReadLinesSnoc(pre + RowLines(init), RowText(row));
      StepRow(Reading(tiles, Some(n), image0 + init), row);
      assert image == init + [row];
      AppendOne(image0, init, row);
    }
  }

  lemma AppendOne<T>(a: seq<T>, b: seq<T>, x: T)
    ensures a + (b + [x]) == (a + b) + [x]
  {
  }

  lemma AppendFour<T>(a: seq<T>, b: seq<T>, c: seq<T>, d: seq<T>)
    ensures a + (b + c + d) == a + b + c + d
  {
  }

  /** A header, rows and a blank line store one tile under its number. */
  lemma ReadTile(pre: seq<string>, tiles: Items, n: nat, image: Image)
    requires ReadLines(pre) == Ok(Reading(tiles, None, [])) && NewTile(image, n).Ok?
    ensures ReadLines(pre + TileLines(n, image)) == Ok(Reading(Put(tiles, n, NewTile(image, n).value), None, []))
  {
    var header := pre + [HeaderLine(n)];
    ReadLinesSnoc(pre, HeaderLine(n));
    StepHeader(tiles, n);
    ReadRows(header, tiles, n, [], image);
    assert [] + image == image;
    var rows := header + RowLines(image);
    ReadLinesSnoc(rows, "\n");
    StepBlank(tiles, n, image);
    AppendFour(pre, [HeaderLine(n)], RowLines(image), ["\n"]);
  }

  /** The puzzle input for a list of numbered images. */
  function InputLines(ts: seq<(nat, Image)>): seq<string> {
    if ts == [] then [] else InputLines(ts[..|ts| - 1]) + TileLines(ts[|ts| - 1].0, ts[|ts| - 1].1)
  }

  /** Every image of `ts` makes a tile. */
  predicate AllTiles(ts: seq<(nat, Image)>) {
    forall i :: 0 <= i < |ts| ==> NewTile(ts[i].1, ts[i].0).Ok?
  }

  /** The dict `parse_input` should build from `ts`: each number with its tile, in input order. */
  function TilesOf(ts: seq<(nat, Image)>): (items: Items)
    requires AllTiles(ts)
    ensures |items| == |ts|
    ensures forall i :: 0 <= i < |ts| ==> items[i] == (ts[i].0 as int, NewTile(ts[i].1, ts[i].0).value)
  {
    if ts == [] then [] else TilesOf(ts[..|ts| - 1]) + [(ts[|ts| - 1].0 as int, NewTile(ts[|ts| - 1].1, ts[|ts| - 1].0).value)]
  }

  /** The numbers of `ts` are pairwise different. */
  predicate DistinctNumbers(ts: seq<(nat, Image)>) {
    forall i, j :: 0 <= i < j < |ts| ==> ts[i].0 != ts[j].0
  }

  lemma {:induction false} ReadInput(ts: seq<(nat, Image)>)
    requires AllTiles(ts) && DistinctNumbers(ts)
    ensures ReadLines(InputLines(ts)) == Ok(Reading(TilesOf(ts), None, []))
  {
    if ts != [] {
      var init := ts[..|ts| - 1];
      var (n, image) := ts[|ts| - 1];
      assert AllTiles(init) && DistinctNumbers(init);
      ReadInput(init);
      ReadTile(InputLines(init), TilesOf(init), n, image);
      PutNew(TilesOf(init), n, NewTile(image, n).value);
    }
  }

  /**
   * `parse_input` reads back an input written in the puzzle's format: every
   * tile, under its own number, in input order.
   */
  lemma ParseInputText(ts: seq<(nat, Image)>)
    requires AllTiles(ts) && DistinctNumbers(ts)
    ensures ParsedTiles(InputLines(ts)) == Ok(TilesOf(ts))
  {
    ReadInput(ts);
  }

  /** A last tile without the blank line after it fails the final assertion. */
  lemma UnclosedTile(n: nat, image: Image)
    requires image != [] && RowsNonEmpty(image)
    ensures ParsedTiles([HeaderLine(n)] + RowLines(image)) == Err("AssertionError")
  {
    var header: seq<string> := [HeaderLine(n)];
    assert header[..0] == [];
    HeaderNumLine(n);
    ReadRows(header, [], n, [], image);
    assert [] + image == image;
  }

  /** A blank line where a header is expected stores `Tile([], None)`, whose first row does not exist. */
  lemma BlankBeforeHeader(pre: seq<string>, tiles: Items)
    requires ReadLines(pre) == Ok(Reading(tiles, None, []))
    ensures ParsedTiles(pre + ["\n"]) == Err("IndexError")
  {
    var lines := pre + ["\n"];
    assert lines[..|lines| - 1] == pre;
    assert Py.IsSpace("\n");
  }
}
