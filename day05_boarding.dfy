/**
 * Day 5 (05/05.py): boarding passes are ten letters, seven F/B choosing the
 * row and three L/R choosing the column, each read as a binary number.
 */
module Boarding {
  import opened Base
  import Py

  /** `Seat(row, col)`; two seats are equal when row and column are (05/05.py:13-14). */
  datatype Seat = Seat(row: int, col: int)

  /** `Seat.seat_id`. */
  function SeatId(s: Seat): int {
    s.row * 8 + s.col
  }

  function Bit(b: bool): nat {
    if b then 1 else 0
  }

  /** `convert_bools_to_int`: the sum of `int(b) << i`, the first element least significant. */
  function BoolsToInt(bs: seq<bool>): (n: nat)
    ensures n < Py.Pow2(|bs|)
  {
    if bs == [] then 0
    else
      var init := bs[..|bs| - 1];
      BoolsToInt(init) + Bit(bs[|bs| - 1]) * Py.Pow2(|bs| - 1)
  }

  /** The first `k` bits of `n`, least significant first. */
  function IntToBools(n: nat, k: nat): (bs: seq<bool>)
    ensures |bs| == k
  {
    if k == 0 then [] else [n % 2 == 1] + IntToBools(n / 2, k - 1)
  }

  /** Reading the first bit off: the rest counts double. */
  lemma {:induction false} BoolsToIntCons(b: bool, bs: seq<bool>)
    ensures BoolsToInt([b] + bs) == Bit(b) + 2 * BoolsToInt(bs)
    decreases |bs|
  {
    var t := [b] + bs;
    if bs != [] {
      var init := bs[..|bs| - 1];
      assert t[..|t| - 1] == [b] + init;
      assert t[|t| - 1] == bs[|bs| - 1];
      BoolsToIntCons(b, init);
      var top, p := Bit(bs[|bs| - 1]), Py.Pow2(|bs| - 1);
      assert Py.Pow2(|t| - 1) == 2 * p;
      assert BoolsToInt(t) == BoolsToInt([b] + init) + top * (2 * p);
      assert BoolsToInt(bs) == BoolsToInt(init) + top * p;
      assert top * (2 * p) == 2 * (top * p);
    } else {
      assert t[..0] == [];
    }
  }

  /** Encoding a number below 2^k in k bits and converting back gives the number. */
  lemma {:induction false} BoolsToIntOfIntToBools(n: nat, k: nat)
    requires n < Py.Pow2(k)
    ensures BoolsToInt(IntToBools(n, k)) == n
  {
    if k > 0 {
      BoolsToIntOfIntToBools(n / 2, k - 1);
      BoolsToIntCons(n % 2 == 1, IntToBools(n / 2, k - 1));
    }
  }

  /** Converting bits to a number and back gives the bits: the conversion is one-to-one. */
  lemma {:induction false} IntToBoolsOfBoolsToInt(bs: seq<bool>)
    ensures IntToBools(BoolsToInt(bs), |bs|) == bs
  {
    if bs != [] {
      var rest := bs[1..];
      assert bs == [bs[0]] + rest;
      BoolsToIntCons(bs[0], rest);
      IntToBoolsOfBoolsToInt(rest);
    }
  }

  function Reverse<T>(s: seq<T>): (r: seq<T>)
    ensures |r| == |s| && forall i :: 0 <= i < |s| ==> r[i] == s[|s| - 1 - i]
  {
    seq(|s|, i requires 0 <= i < |s| => s[|s| - 1 - i])
  }

  /** The letters read as a binary number with `one` as 1, most significant first. */
  function BinaryValue(s: string, one: char): nat {
    if s == [] then 0 else 2 * BinaryValue(s[..|s| - 1], one) + Bit(s[|s| - 1] == one)
  }

  function Flags(s: string, one: char): (bs: seq<bool>)
    ensures |bs| == |s| && forall i :: 0 <= i < |s| ==> (bs[i] <==> s[i] == one)
  {
    seq(|s|, i requires 0 <= i < |s| => s[i] == one)
  }

  /** Reading the reversed letters least significant first is reading them most significant first. */
  lemma {:induction false} ReversedIsBinary(s: string, one: char)
    ensures BoolsToInt(Flags(Reverse(s), one)) == BinaryValue(s, one)
  {
    if s != [] {
      var init := s[..|s| - 1];
      ReversedIsBinary(init, one);
      assert Flags(Reverse(s), one) == [s[|s| - 1] == one] + Flags(Reverse(init), one);
      BoolsToIntCons(s[|s| - 1] == one, Flags(Reverse(init), one));
    }
  }

  predicate AllIn(s: string, a: char, b: char) {
    forall i :: 0 <= i < |s| ==> s[i] == a || s[i] == b
  }

  /** A stripped pass of ten letters, seven of F/B then three of L/R. */
  predicate WellFormed(t: string) {
    |t| == 10 && AllIn(t[..7], 'F', 'B') && AllIn(t[7..], 'L', 'R')
  }

  /** `parse_seat`: `s[6::-1]` is the first seven letters reversed and `s[:6:-1]` the last three
   * reversed; each failing assertion becomes an error. */
  function ParseSeat(s: string): (r: Result<Seat>)
    ensures r.Ok? <==> WellFormed(Py.RStrip(s))
    ensures r.Ok? ==> r.value == Seat(BinaryValue(Py.RStrip(s)[..7], 'B'), BinaryValue(Py.RStrip(s)[7..], 'R'))
  {
    var t := Py.RStrip(s);
    if |t| != 10 then Err("AssertionError")
    else
      var rowStr := Reverse(t[..7]);
      if !AllIn(rowStr, 'F', 'B') then
        assert !AllIn(t[..7], 'F', 'B') by {
          var i :| 0 <= i < 7 && rowStr[i] != 'F' && rowStr[i] != 'B';
          assert rowStr[i] == t[..7][6 - i];
        }
        Err("AssertionError")
      else
        var colStr := Reverse(t[7..]);
        if !AllIn(colStr, 'L', 'R') then
          assert !AllIn(t[7..], 'L', 'R') by {
            var i :| 0 <= i < 3 && colStr[i] != 'L' && colStr[i] != 'R';
            assert colStr[i] == t[7..][2 - i];
          }
          Err("AssertionError")
        else
          assert AllIn(t[..7], 'F', 'B') by {
            forall i | 0 <= i < 7 ensures t[..7][i] == 'F' || t[..7][i] == 'B' {
              assert t[..7][i] == rowStr[6 - i];
            }
          }
          assert AllIn(t[7..], 'L', 'R') by {
            forall i | 0 <= i < 3 ensures t[7..][i] == 'L' || t[7..][i] == 'R' {
              assert t[7..][i] == colStr[2 - i];
            }
          }
          ReversedIsBinary(t[..7], 'B');
          ReversedIsBinary(t[7..], 'R');
          Ok(Seat(BoolsToInt(Flags(rowStr, 'B')), BoolsToInt(Flags(colStr, 'R'))))
  }

  lemma {:induction false} BinaryValueBound(s: string, one: char)
    ensures BinaryValue(s, one) < Py.Pow2(|s|)
  {
    if s != [] {
      BinaryValueBound(s[..|s| - 1], one);
    }
  }

  /** A decoded seat has row 0..127 and column 0..7, hence an id in 0..1023. */
  lemma SeatBounds(s: string)
    requires ParseSeat(s).Ok?
    ensures 0 <= ParseSeat(s).value.row < 128 && 0 <= ParseSeat(s).value.col < 8
    ensures 0 <= SeatId(ParseSeat(s).value) < 1024
  {
    var t := Py.RStrip(s);
    BinaryValueBound(t[..7], 'B');
    BinaryValueBound(t[7..], 'R');
    assert Py.Pow2(7) == 128 && Py.Pow2(3) == 8;
  }

  /** The k letters spelling `n` in binary, most significant first, with `zero` and `one`. */
  function Spell(n: nat, k: nat, zero: char, one: char): (s: string)
    ensures |s| == k && AllIn(s, zero, one)
  {
    if k == 0 then [] else Spell(n / 2, k - 1, zero, one) + [if n % 2 == 1 then one else zero]
  }

  lemma {:induction false} BinaryValueSpell(n: nat, k: nat, zero: char, one: char)
    requires n < Py.Pow2(k) && zero != one
    ensures BinaryValue(Spell(n, k, zero, one), one) == n
  {
    if k > 0 {
      var s := Spell(n, k, zero, one);
      assert s[..|s| - 1] == Spell(n / 2, k - 1, zero, one);
      BinaryValueSpell(n / 2, k - 1, zero, one);
    }
  }

  /** The boarding pass of a seat in rows 0..127 and columns 0..7. */
  function EncodeSeat(seat: Seat): string
    requires 0 <= seat.row < 128 && 0 <= seat.col < 8
  {
    Spell(seat.row, 7, 'F', 'B') + Spell(seat.col, 3, 'L', 'R')
  }

  /** Every seat is decoded from its own boarding pass. */
  lemma ParseEncodeSeat(seat: Seat)
    requires 0 <= seat.row < 128 && 0 <= seat.col < 8
    ensures ParseSeat(EncodeSeat(seat)) == Ok(seat)
  {
    var t := EncodeSeat(seat);
    assert t[..7] == Spell(seat.row, 7, 'F', 'B') && t[7..] == Spell(seat.col, 3, 'L', 'R');
    assert Py.RStrip(t) == t by {
      assert t[9] == 'L' || t[9] == 'R';
    }
    assert Py.Pow2(7) == 128 && Py.Pow2(3) == 8;
    BinaryValueSpell(seat.row, 7, 'F', 'B');
    BinaryValueSpell(seat.col, 3, 'L', 'R');
  }

  lemma {:induction false} SpellBinaryValue(s: string, zero: char, one: char)
    requires AllIn(s, zero, one)
    ensures Spell(BinaryValue(s, one), |s|, zero, one) == s
  {
    if s != [] {
      var init := s[..|s| - 1];
      SpellBinaryValue(init, zero, one);
    }
  }

  /** Every well-formed pass is the encoding of the seat it decodes to. */
  lemma EncodeParseSeat(s: string)
    requires ParseSeat(s).Ok?
    ensures var v := ParseSeat(s).value;
            0 <= v.row < 128 && 0 <= v.col < 8 && EncodeSeat(v) == Py.RStrip(s)
  {
    var t := Py.RStrip(s);
    SeatBounds(s);
    SpellBinaryValue(t[..7], 'F', 'B');
    SpellBinaryValue(t[7..], 'L', 'R');
    assert t == t[..7] + t[7..];
  }

  /** The four passes of 05/05.py:36-45. */
  lemma SamplePass1()
    ensures ParseSeat("FBFBBFFRLR") == Ok(Seat(44, 5)) && SeatId(Seat(44, 5)) == 357
  {
    SampleRow1();
    SampleColumn1();
    SamplePass(Seat(44, 5), "FBFBBFFRLR");
  }

  lemma SamplePass2()
    ensures ParseSeat("BFFFBBFRRR") == Ok(Seat(70, 7)) && SeatId(Seat(70, 7)) == 567
  {
    SampleRow2();
    SampleColumn2();
    SamplePass(Seat(70, 7), "BFFFBBFRRR");
  }

  lemma SamplePass3()
    ensures ParseSeat("FFFBBBFRRR") == Ok(Seat(14, 7)) && SeatId(Seat(14, 7)) == 119
  {
    SampleRow3();
    SampleColumn3();
    SamplePass(Seat(14, 7), "FFFBBBFRRR");
  }

  lemma SamplePass4()
    ensures ParseSeat("BBFFBBFRLL") == Ok(Seat(102, 4)) && SeatId(Seat(102, 4)) == 820
  {
    SampleRow4();
    SampleColumn4();
    SamplePass(Seat(102, 4), "BBFFBBFRLL");
  }

  lemma SampleRow1()
    ensures Spell(44, 7, 'F', 'B') == "FBFBBFF"
  {
    assert Spell(0, 1, 'F', 'B') == "F";
    assert Spell(1, 2, 'F', 'B') == "FB";
    assert Spell(2, 3, 'F', 'B') == "FBF";
    assert Spell(5, 4, 'F', 'B') == "FBFB";
    assert Spell(11, 5, 'F', 'B') == "FBFBB";
    assert Spell(22, 6, 'F', 'B') == "FBFBBF";
  }

  lemma SampleColumn1()
    ensures Spell(5, 3, 'L', 'R') == "RLR"
  {
    assert Spell(1, 1, 'L', 'R') == "R";
    assert Spell(2, 2, 'L', 'R') == "RL";
  }

  lemma SampleRow2()
    ensures Spell(70, 7, 'F', 'B') == "BFFFBBF"
  {
    assert Spell(1, 1, 'F', 'B') == "B";
    assert Spell(2, 2, 'F', 'B') == "BF";
    assert Spell(4, 3, 'F', 'B') == "BFF";
    assert Spell(8, 4, 'F', 'B') == "BFFF";
    assert Spell(17, 5, 'F', 'B') == "BFFFB";
    assert Spell(35, 6, 'F', 'B') == "BFFFBB";
  }

  lemma SampleColumn2()
    ensures Spell(7, 3, 'L', 'R') == "RRR"
  {
    assert Spell(1, 1, 'L', 'R') == "R";
    assert Spell(3, 2, 'L', 'R') == "RR";
  }

  lemma SampleRow3()
    ensures Spell(14, 7, 'F', 'B') == "FFFBBBF"
  {
    assert Spell(0, 1, 'F', 'B') == "F";
    assert Spell(0, 2, 'F', 'B') == "FF";
    assert Spell(0, 3, 'F', 'B') == "FFF";
    assert Spell(1, 4, 'F', 'B') == "FFFB";
    assert Spell(3, 5, 'F', 'B') == "FFFBB";
    assert Spell(7, 6, 'F', 'B') == "FFFBBB";
  }

  lemma SampleColumn3()
    ensures Spell(7, 3, 'L', 'R') == "RRR"
  {
    assert Spell(1, 1, 'L', 'R') == "R";
    assert Spell(3, 2, 'L', 'R') == "RR";
  }

  lemma SampleRow4()
    ensures Spell(102, 7, 'F', 'B') == "BBFFBBF"
  {
    assert Spell(1, 1, 'F', 'B') == "B";
    assert Spell(3, 2, 'F', 'B') == "BB";
    assert Spell(6, 3, 'F', 'B') == "BBF";
    assert Spell(12, 4, 'F', 'B') == "BBFF";
    assert Spell(25, 5, 'F', 'B') == "BBFFB";
    assert Spell(51, 6, 'F', 'B') == "BBFFBB";
  }

  lemma SampleColumn4()
    ensures Spell(4, 3, 'L', 'R') == "RLL"
  {
    assert Spell(1, 1, 'L', 'R') == "R";
    assert Spell(2, 2, 'L', 'R') == "RL";
  }

  lemma SamplePass(seat: Seat, s: string)
    requires 0 <= seat.row < 128 && 0 <= seat.col < 8 && s == EncodeSeat(seat)
    ensures ParseSeat(s) == Ok(seat)
  {
    ParseEncodeSeat(seat);
  }

  /** The sum of all integers from `lo` to `hi` inclusive. */
  function RangeSum(lo: int, hi: int): int
    decreases hi - lo
  {
    if hi < lo then 0 else RangeSum(lo, hi - 1) + hi
  }

  /** `expected_sum` of 05/05.py:57, with Python's floor division. */
  function ExpectedSum(minId: int, maxId: int): int {
    ((maxId * (maxId + 1)) - ((minId - 1) * minId)) / 2
  }

  /** The interview trick is exact: the formula is the sum of `min_seat_id .. max_seat_id`. */
  lemma {:induction false} ExpectedSumIsRangeSum(minId: int, maxId: int)
    requires minId <= maxId + 1
    ensures ExpectedSum(minId, maxId) == RangeSum(minId, maxId)
    decreases maxId - minId
  {
    if maxId >= minId {
      ExpectedSumIsRangeSum(minId, maxId - 1);
      assert (maxId * (maxId + 1)) - ((minId - 1) * minId)
             == ((maxId - 1) * maxId) - ((minId - 1) * minId) + 2 * maxId;
    } else {
      assert maxId == minId - 1;
      assert (maxId * (maxId + 1)) - ((minId - 1) * minId) == 0;
    }
  }
}
