/**
 * The worked examples of day 23, Crab Cups: the tests on `pop_next_cups`,
 * `insert_cups`, `move_cups` and `cups_after`.
 */
module CrabCupsExamples {
  import opened Base
  import Py
  import opened CrabCups

  const SampleText: string := "389125467"
  const Sample: seq<int> := [3, 8, 9, 1, 2, 5, 4, 6, 7]

  lemma SampleDigits()
    ensures Py.AllDigits(SampleText)
    ensures forall i :: 0 <= i < |SampleText| ==> Py.DigitValue(SampleText[i]) == Sample[i]
  {
  }

  lemma SampleParses()
    ensures ParseCups(SampleText) == Ok(Sample)
  {
    SampleDigits();
    ParseCupsOk(SampleText, Sample);
  }

  /** The four pick-ups of the test, the last one wrapping round to the front. */
  lemma SamplePops()
    ensures PopNext(Sample, 0, 3) == ([1, 2, 5, 4, 6, 7], [3, 8, 9])
    ensures PopNext(Sample, 3, 3) == ([3, 8, 9, 4, 6, 7], [1, 2, 5])
    ensures PopNext(Sample, 6, 3) == ([3, 8, 9, 1, 2, 5], [4, 6, 7])
    ensures PopNext(Sample, 8, 3) == ([9, 1, 2, 5, 4, 6], [7, 3, 8])
  {
    assert Sample[0..3] == [3, 8, 9];
    assert Sample[..0] == [];
    assert Sample[3..] == [1, 2, 5, 4, 6, 7];
    assert [] + [1, 2, 5, 4, 6, 7] == [1, 2, 5, 4, 6, 7];
    assert Sample[3..6] == [1, 2, 5];
    assert Sample[..3] == [3, 8, 9];
    assert Sample[6..] == [4, 6, 7];
    assert [3, 8, 9] + [4, 6, 7] == [3, 8, 9, 4, 6, 7];
    assert Sample[6..9] == [4, 6, 7];
    assert Sample[..6] == [3, 8, 9, 1, 2, 5];
    assert Sample[9..] == [];
    assert [3, 8, 9, 1, 2, 5] + [] == [3, 8, 9, 1, 2, 5];
    assert Sample[8..9] == [7];
    assert Sample[..8] == [3, 8, 9, 1, 2, 5, 4, 6];
    assert Sample[9..] == [];
    assert [3, 8, 9, 1, 2, 5, 4, 6] + [] == [3, 8, 9, 1, 2, 5, 4, 6];
    assert [3, 8, 9, 1, 2, 5, 4, 6][2..] == [9, 1, 2, 5, 4, 6];
    assert [3, 8, 9, 1, 2, 5, 4, 6][..2] == [3, 8];
    assert [7] + [3, 8] == [7, 3, 8];
  }

  lemma SampleInserts()
    ensures Inserted([3, 2, 5, 4, 6, 7], [8, 9, 1], 2) == [3, 2, 8, 9, 1, 5, 4, 6, 7]
    ensures Inserted([3, 2, 5, 4, 6, 7], [8, 9, 1], 6) == [3, 2, 5, 4, 6, 7, 8, 9, 1]
  {
    assert [3, 2, 5, 4, 6, 7][..2] == [3, 2];
    assert [3, 2, 5, 4, 6, 7][2..] == [5, 4, 6, 7];
    assert [3, 2] + [8, 9, 1] + [5, 4, 6, 7] == [3, 2, 8, 9, 1, 5, 4, 6, 7];
    assert [3, 2, 5, 4, 6, 7][..6] == [3, 2, 5, 4, 6, 7];
    assert [3, 2, 5, 4, 6, 7][6..] == [];
    assert [3, 2, 5, 4, 6, 7] + [8, 9, 1] + [] == [3, 2, 5, 4, 6, 7, 8, 9, 1];
  }

  const Shuffled: seq<int> := [5, 8, 3, 7, 4, 1, 9, 2, 6]

  lemma ShuffledStart()
    ensures Py.IndexOf(Shuffled, 1) == Some(5)
  {
    IndexOfFirst(Shuffled, 1, 5);
  }

  lemma ShuffledHalves()
    ensures Shuffled[6..] + Shuffled[..5] == [9, 2, 6, 5, 8, 3, 7, 4]
  {
    assert Shuffled[6..] == [9, 2, 6];
    assert Shuffled[..5] == [5, 8, 3, 7, 4];
  }

  lemma SampleCupsAfter()
    ensures CupsAfter(Shuffled, 1) == Ok([9, 2, 6, 5, 8, 3, 7, 4])
  {
    ShuffledStart();
    ShuffledHalves();
  }

  const Moved1: seq<int> := [3, 2, 8, 9, 1, 5, 4, 6, 7]
  const Moved2: seq<int> := [3, 2, 5, 4, 6, 7, 8, 9, 1]
  const Moved3: seq<int> := [3, 4, 6, 7, 2, 5, 8, 9, 1]

  lemma SampleMove1Pick()
    ensures PopNext(Sample, 1, 3) == ([3, 2, 5, 4, 6, 7], [8, 9, 1])
  {
    assert Sample[1..4] == [8, 9, 1];
    assert Sample[..1] == [3];
    assert Sample[4..] == [2, 5, 4, 6, 7];
    assert [3] + [2, 5, 4, 6, 7] == [3, 2, 5, 4, 6, 7];
  }

  lemma SampleMove1Destination()
    requires NonNegative([3, 2, 5, 4, 6, 7])
    ensures DestinationLabel([3, 2, 5, 4, 6, 7], 3) == Some(Ok(2))
  {
    assert 2 in [3, 2, 5, 4, 6, 7];
  }

  lemma SampleMove1Found()
    ensures Py.IndexOf([3, 2, 5, 4, 6, 7], 2) == Some(1)
  {
    IndexOfFirst([3, 2, 5, 4, 6, 7], 2, 1);
  }

  lemma SampleMove1Insert()
    ensures Inserted([3, 2, 5, 4, 6, 7], [8, 9, 1], 2) == Moved1
  {
    assert [3, 2, 5, 4, 6, 7][..2] == [3, 2];
    assert [3, 2, 5, 4, 6, 7][2..] == [5, 4, 6, 7];
    assert [3, 2] + [8, 9, 1] + [5, 4, 6, 7] == [3, 2, 8, 9, 1, 5, 4, 6, 7];
  }

  /** Move 1 of the test, at index 0. */
  lemma SampleMove1()
    requires NonNegative(Sample)
    ensures Move(Sample, 0) == Some(Ok(Moved1))
  {
    SampleMove1Pick();
    MoveStages(Sample, 0, [3, 2, 5, 4, 6, 7], [8, 9, 1]);
    SampleMove1Destination();
    SampleMove1Found();
    SampleMove1Insert();
    PlaceBy([3, 2, 5, 4, 6, 7], [8, 9, 1], 3, 2, 1, Moved1);
  }

  lemma SampleMove2Pick()
    ensures PopNext(Moved1, 2, 3) == ([3, 2, 5, 4, 6, 7], [8, 9, 1])
  {
    assert Moved1[2..5] == [8, 9, 1];
    assert Moved1[..2] == [3, 2];
    assert Moved1[5..] == [5, 4, 6, 7];
    assert [3, 2] + [5, 4, 6, 7] == [3, 2, 5, 4, 6, 7];
  }

  lemma SampleMove2Destination()
    requires NonNegative([3, 2, 5, 4, 6, 7])
    ensures DestinationLabel([3, 2, 5, 4, 6, 7], 2) == Some(Ok(7))
  {
    assert 1 !in [3, 2, 5, 4, 6, 7];
    MaxIs([3, 2, 5, 4, 6, 7], 7);
  }

  lemma SampleMove2Found()
    ensures Py.IndexOf([3, 2, 5, 4, 6, 7], 7) == Some(5)
  {
    IndexOfFirst([3, 2, 5, 4, 6, 7], 7, 5);
  }

  lemma SampleMove2Insert()
    ensures Inserted([3, 2, 5, 4, 6, 7], [8, 9, 1], 6) == Moved2
  {
    assert [3, 2, 5, 4, 6, 7][..6] == [3, 2, 5, 4, 6, 7];
    assert [3, 2, 5, 4, 6, 7][6..] == [];
    assert [3, 2, 5, 4, 6, 7] + [8, 9, 1] + [] == [3, 2, 5, 4, 6, 7, 8, 9, 1];
  }

  /** Move 2 of the test, at index 1. */
  lemma SampleMove2()
    requires NonNegative(Moved1)
    ensures Move(Moved1, 1) == Some(Ok(Moved2))
  {
    SampleMove2Pick();
    MoveStages(Moved1, 1, [3, 2, 5, 4, 6, 7], [8, 9, 1]);
    SampleMove2Destination();
    SampleMove2Found();
    SampleMove2Insert();
    PlaceBy([3, 2, 5, 4, 6, 7], [8, 9, 1], 2, 7, 5, Moved2);
  }

  lemma SampleMove3Pick()
    ensures PopNext(Moved2, 3, 3) == ([3, 2, 5, 8, 9, 1], [4, 6, 7])
  {
    assert Moved2[3..6] == [4, 6, 7];
    assert Moved2[..3] == [3, 2, 5];
    assert Moved2[6..] == [8, 9, 1];
    assert [3, 2, 5] + [8, 9, 1] == [3, 2, 5, 8, 9, 1];
  }

  lemma SampleMove3Destination()
    requires NonNegative([3, 2, 5, 8, 9, 1])
    ensures DestinationLabel([3, 2, 5, 8, 9, 1], 5) == Some(Ok(3))
  {
    assert 4 !in [3, 2, 5, 8, 9, 1];
    assert 3 in [3, 2, 5, 8, 9, 1];
  }

  lemma SampleMove3Found()
    ensures Py.IndexOf([3, 2, 5, 8, 9, 1], 3) == Some(0)
  {
    IndexOfFirst([3, 2, 5, 8, 9, 1], 3, 0);
  }

  lemma SampleMove3Insert()
    ensures Inserted([3, 2, 5, 8, 9, 1], [4, 6, 7], 1) == Moved3
  {
    assert [3, 2, 5, 8, 9, 1][..1] == [3];
    assert [3, 2, 5, 8, 9, 1][1..] == [2, 5, 8, 9, 1];
    assert [3] + [4, 6, 7] + [2, 5, 8, 9, 1] == [3, 4, 6, 7, 2, 5, 8, 9, 1];
  }

  /** Move 3 of the test, at index 2. */
  lemma SampleMove3()
    requires NonNegative(Moved2)
    ensures Move(Moved2, 2) == Some(Ok(Moved3))
  {
    SampleMove3Pick();
    MoveStages(Moved2, 2, [3, 2, 5, 8, 9, 1], [4, 6, 7]);
    SampleMove3Destination();
    SampleMove3Found();
    SampleMove3Insert();
    PlaceBy([3, 2, 5, 8, 9, 1], [4, 6, 7], 5, 3, 0, Moved3);
  }

  // ---------------------------------------------------------------- the 10-round game

  /** A move that succeeds, followed by the index of the cup after the current one. */
  predicate Round(cups: seq<int>, index: nat, next: seq<int>, nextIndex: nat) {
    && NonNegative(cups) && index < |cups| && Move(cups, index) == Some(Ok(next))
    && Py.IndexOf(next, cups[index]).Some? && nextIndex == (Py.IndexOf(next, cups[index]).value + 1) % |next|
  }

  /** A known round moves the game on to the next circle and index. */
  lemma PlayRound(cups: seq<int>, index: nat, next: seq<int>, nextIndex: nat, rounds: nat)
    requires Round(cups, index, next, nextIndex) && rounds >= 1
    ensures NonNegative(next) && Play(cups, index, rounds) == Play(next, nextIndex, rounds - 1)
  {
    PlayStep(cups, index, rounds);
  }

  /** Rounds known one by one make up the game. */

  const Moved4: seq<int> := [4, 6, 7, 9, 1, 3, 2, 5, 8]

  lemma SampleMove4Pick()
    ensures PopNext(Moved3, 7, 3) == ([4, 6, 7, 2, 5, 8], [9, 1, 3])
  {
    assert Moved3[7..9] == [9, 1];
    assert Moved3[..7] == [3, 4, 6, 7, 2, 5, 8];
    assert Moved3[9..] == [];
    assert [3, 4, 6, 7, 2, 5, 8] + [] == [3, 4, 6, 7, 2, 5, 8];
    assert [3, 4, 6, 7, 2, 5, 8][1..] == [4, 6, 7, 2, 5, 8];
    assert [3, 4, 6, 7, 2, 5, 8][..1] == [3];
    assert [9, 1] + [3] == [9, 1, 3];
  }

  lemma SampleMove4Destination()
    requires NonNegative([4, 6, 7, 2, 5, 8])
    ensures DestinationLabel([4, 6, 7, 2, 5, 8], 8) == Some(Ok(7))
  {
    assert 7 in [4, 6, 7, 2, 5, 8];
  }

  lemma SampleMove4Found()
    ensures Py.IndexOf([4, 6, 7, 2, 5, 8], 7) == Some(2)
  {
    IndexOfFirst([4, 6, 7, 2, 5, 8], 7, 2);
  }

  lemma SampleMove4Insert()
    ensures Inserted([4, 6, 7, 2, 5, 8], [9, 1, 3], 3) == Moved4
  {
    assert [4, 6, 7, 2, 5, 8][..3] == [4, 6, 7];
    assert [4, 6, 7, 2, 5, 8][3..] == [2, 5, 8];
    assert [4, 6, 7] + [9, 1, 3] + [2, 5, 8] == [4, 6, 7, 9, 1, 3, 2, 5, 8];
  }

  /** Move 4 of the game, at index 6. */
  lemma SampleMove4()
    requires NonNegative(Moved3)
    ensures Move(Moved3, 6) == Some(Ok(Moved4))
  {
    SampleMove4Pick();
    MoveStages(Moved3, 6, [4, 6, 7, 2, 5, 8], [9, 1, 3]);
    SampleMove4Destination();
    SampleMove4Found();
    SampleMove4Insert();
    PlaceBy([4, 6, 7, 2, 5, 8], [9, 1, 3], 8, 7, 2, Moved4);
  }

  const Moved5: seq<int> := [4, 1, 3, 6, 7, 9, 2, 5, 8]

  lemma SampleMove5Pick()
    ensures PopNext(Moved4, 1, 3) == ([4, 1, 3, 2, 5, 8], [6, 7, 9])
  {
    assert Moved4[1..4] == [6, 7, 9];
    assert Moved4[..1] == [4];
    assert Moved4[4..] == [1, 3, 2, 5, 8];
    assert [4] + [1, 3, 2, 5, 8] == [4, 1, 3, 2, 5, 8];
  }

  lemma SampleMove5Destination()
    requires NonNegative([4, 1, 3, 2, 5, 8])
    ensures DestinationLabel([4, 1, 3, 2, 5, 8], 4) == Some(Ok(3))
  {
    assert 3 in [4, 1, 3, 2, 5, 8];
  }

  lemma SampleMove5Found()
    ensures Py.IndexOf([4, 1, 3, 2, 5, 8], 3) == Some(2)
  {
    IndexOfFirst([4, 1, 3, 2, 5, 8], 3, 2);
  }

  lemma SampleMove5Insert()
    ensures Inserted([4, 1, 3, 2, 5, 8], [6, 7, 9], 3) == Moved5
  {
    assert [4, 1, 3, 2, 5, 8][..3] == [4, 1, 3];
    assert [4, 1, 3, 2, 5, 8][3..] == [2, 5, 8];
    assert [4, 1, 3] + [6, 7, 9] + [2, 5, 8] == [4, 1, 3, 6, 7, 9, 2, 5, 8];
  }

  /** Move 5 of the game, at index 0. */
  lemma SampleMove5()
    requires NonNegative(Moved4)
    ensures Move(Moved4, 0) == Some(Ok(Moved5))
  {
    SampleMove5Pick();
    MoveStages(Moved4, 0, [4, 1, 3, 2, 5, 8], [6, 7, 9]);
    SampleMove5Destination();
    SampleMove5Found();
    SampleMove5Insert();
    PlaceBy([4, 1, 3, 2, 5, 8], [6, 7, 9], 4, 3, 2, Moved5);
  }

  const Moved6: seq<int> := [4, 1, 9, 3, 6, 7, 2, 5, 8]

  lemma SampleMove6Pick()
    ensures PopNext(Moved5, 2, 3) == ([4, 1, 9, 2, 5, 8], [3, 6, 7])
  {
    assert Moved5[2..5] == [3, 6, 7];
    assert Moved5[..2] == [4, 1];
    assert Moved5[5..] == [9, 2, 5, 8];
    assert [4, 1] + [9, 2, 5, 8] == [4, 1, 9, 2, 5, 8];
  }

  lemma SampleMove6Destination()
    requires NonNegative([4, 1, 9, 2, 5, 8])
    ensures DestinationLabel([4, 1, 9, 2, 5, 8], 1) == Some(Ok(9))
  {
    MaxIs([4, 1, 9, 2, 5, 8], 9);
  }

  lemma SampleMove6Found()
    ensures Py.IndexOf([4, 1, 9, 2, 5, 8], 9) == Some(2)
  {
    IndexOfFirst([4, 1, 9, 2, 5, 8], 9, 2);
  }

  lemma SampleMove6Insert()
    ensures Inserted([4, 1, 9, 2, 5, 8], [3, 6, 7], 3) == Moved6
  {
    assert [4, 1, 9, 2, 5, 8][..3] == [4, 1, 9];
    assert [4, 1, 9, 2, 5, 8][3..] == [2, 5, 8];
    assert [4, 1, 9] + [3, 6, 7] + [2, 5, 8] == [4, 1, 9, 3, 6, 7, 2, 5, 8];
  }

  /** Move 6 of the game, at index 1. */
  lemma SampleMove6()
    requires NonNegative(Moved5)
    ensures Move(Moved5, 1) == Some(Ok(Moved6))
  {
    SampleMove6Pick();
    MoveStages(Moved5, 1, [4, 1, 9, 2, 5, 8], [3, 6, 7]);
    SampleMove6Destination();
    SampleMove6Found();
    SampleMove6Insert();
    PlaceBy([4, 1, 9, 2, 5, 8], [3, 6, 7], 1, 9, 2, Moved6);
  }

  const Moved7: seq<int> := [4, 1, 9, 2, 5, 8, 3, 6, 7]

  lemma SampleMove7Pick()
    ensures PopNext(Moved6, 3, 3) == ([4, 1, 9, 2, 5, 8], [3, 6, 7])
  {
    assert Moved6[3..6] == [3, 6, 7];
    assert Moved6[..3] == [4, 1, 9];
    assert Moved6[6..] == [2, 5, 8];
    assert [4, 1, 9] + [2, 5, 8] == [4, 1, 9, 2, 5, 8];
  }

  lemma SampleMove7Destination()
    requires NonNegative([4, 1, 9, 2, 5, 8])
    ensures DestinationLabel([4, 1, 9, 2, 5, 8], 9) == Some(Ok(8))
  {
    assert 8 in [4, 1, 9, 2, 5, 8];
  }

  lemma SampleMove7Found()
    ensures Py.IndexOf([4, 1, 9, 2, 5, 8], 8) == Some(5)
  {
    IndexOfFirst([4, 1, 9, 2, 5, 8], 8, 5);
  }

  lemma SampleMove7Insert()
    ensures Inserted([4, 1, 9, 2, 5, 8], [3, 6, 7], 6) == Moved7
  {
    assert [4, 1, 9, 2, 5, 8][..6] == [4, 1, 9, 2, 5, 8];
    assert [4, 1, 9, 2, 5, 8][6..] == [];
    assert [4, 1, 9, 2, 5, 8] + [3, 6, 7] + [] == [4, 1, 9, 2, 5, 8, 3, 6, 7];
  }

  /** Move 7 of the game, at index 2. */
  lemma SampleMove7()
    requires NonNegative(Moved6)
    ensures Move(Moved6, 2) == Some(Ok(Moved7))
  {
    SampleMove7Pick();
    MoveStages(Moved6, 2, [4, 1, 9, 2, 5, 8], [3, 6, 7]);
    SampleMove7Destination();
    SampleMove7Found();
    SampleMove7Insert();
    PlaceBy([4, 1, 9, 2, 5, 8], [3, 6, 7], 9, 8, 5, Moved7);
  }

  const Moved8: seq<int> := [4, 1, 5, 8, 3, 9, 2, 6, 7]

  lemma SampleMove8Pick()
    ensures PopNext(Moved7, 4, 3) == ([4, 1, 9, 2, 6, 7], [5, 8, 3])
  {
    assert Moved7[4..7] == [5, 8, 3];
    assert Moved7[..4] == [4, 1, 9, 2];
    assert Moved7[7..] == [6, 7];
    assert [4, 1, 9, 2] + [6, 7] == [4, 1, 9, 2, 6, 7];
  }

  lemma SampleMove8Destination()
    requires NonNegative([4, 1, 9, 2, 6, 7])
    ensures DestinationLabel([4, 1, 9, 2, 6, 7], 2) == Some(Ok(1))
  {
    assert 1 in [4, 1, 9, 2, 6, 7];
  }

  lemma SampleMove8Found()
    ensures Py.IndexOf([4, 1, 9, 2, 6, 7], 1) == Some(1)
  {
    IndexOfFirst([4, 1, 9, 2, 6, 7], 1, 1);
  }

  lemma SampleMove8Insert()
    ensures Inserted([4, 1, 9, 2, 6, 7], [5, 8, 3], 2) == Moved8
  {
    assert [4, 1, 9, 2, 6, 7][..2] == [4, 1];
    assert [4, 1, 9, 2, 6, 7][2..] == [9, 2, 6, 7];
    assert [4, 1] + [5, 8, 3] + [9, 2, 6, 7] == [4, 1, 5, 8, 3, 9, 2, 6, 7];
  }

  /** Move 8 of the game, at index 3. */
  lemma SampleMove8()
    requires NonNegative(Moved7)
    ensures Move(Moved7, 3) == Some(Ok(Moved8))
  {
    assert Moved7[3] == 2;
    SampleMove8Pick();
    MoveStages(Moved7, 3, [4, 1, 9, 2, 6, 7], [5, 8, 3]);
    SampleMove8Destination();
    SampleMove8Found();
    SampleMove8Insert();
    PlaceBy([4, 1, 9, 2, 6, 7], [5, 8, 3], 2, 1, 1, Moved8);
  }

  const Moved9: seq<int> := [5, 7, 4, 1, 8, 3, 9, 2, 6]

  lemma SampleMove9Pick()
    ensures PopNext(Moved8, 8, 3) == ([5, 8, 3, 9, 2, 6], [7, 4, 1])
  {
    assert Moved8[8..9] == [7];
    assert Moved8[..8] == [4, 1, 5, 8, 3, 9, 2, 6];
    assert Moved8[9..] == [];
    assert [4, 1, 5, 8, 3, 9, 2, 6] + [] == [4, 1, 5, 8, 3, 9, 2, 6];
    assert [4, 1, 5, 8, 3, 9, 2, 6][2..] == [5, 8, 3, 9, 2, 6];
    assert [4, 1, 5, 8, 3, 9, 2, 6][..2] == [4, 1];
    assert [7] + [4, 1] == [7, 4, 1];
  }

  lemma SampleMove9Destination()
    requires NonNegative([5, 8, 3, 9, 2, 6])
    ensures DestinationLabel([5, 8, 3, 9, 2, 6], 6) == Some(Ok(5))
  {
    assert 5 in [5, 8, 3, 9, 2, 6];
  }

  lemma SampleMove9Found()
    ensures Py.IndexOf([5, 8, 3, 9, 2, 6], 5) == Some(0)
  {
    IndexOfFirst([5, 8, 3, 9, 2, 6], 5, 0);
  }

  lemma SampleMove9Insert()
    ensures Inserted([5, 8, 3, 9, 2, 6], [7, 4, 1], 1) == Moved9
  {
    assert [5, 8, 3, 9, 2, 6][..1] == [5];
    assert [5, 8, 3, 9, 2, 6][1..] == [8, 3, 9, 2, 6];
    assert [5] + [7, 4, 1] + [8, 3, 9, 2, 6] == [5, 7, 4, 1, 8, 3, 9, 2, 6];
  }

  /** Move 9 of the game, at index 7. */
  lemma SampleMove9()
    requires NonNegative(Moved8)
    ensures Move(Moved8, 7) == Some(Ok(Moved9))
  {
    SampleMove9Pick();
    MoveStages(Moved8, 7, [5, 8, 3, 9, 2, 6], [7, 4, 1]);
    SampleMove9Destination();
    SampleMove9Found();
    SampleMove9Insert();
    PlaceBy([5, 8, 3, 9, 2, 6], [7, 4, 1], 6, 5, 0, Moved9);
  }

  const Moved10: seq<int> := [5, 8, 3, 7, 4, 1, 9, 2, 6]

  lemma SampleMove10Pick()
    ensures PopNext(Moved9, 1, 3) == ([5, 8, 3, 9, 2, 6], [7, 4, 1])
  {
    assert Moved9[1..4] == [7, 4, 1];
    assert Moved9[..1] == [5];
    assert Moved9[4..] == [8, 3, 9, 2, 6];
    assert [5] + [8, 3, 9, 2, 6] == [5, 8, 3, 9, 2, 6];
  }

  lemma SampleMove10Destination()
    requires NonNegative([5, 8, 3, 9, 2, 6])
    ensures DestinationLabel([5, 8, 3, 9, 2, 6], 5) == Some(Ok(3))
  {
    assert 4 !in [5, 8, 3, 9, 2, 6];
    assert 3 in [5, 8, 3, 9, 2, 6];
  }

  lemma SampleMove10Found()
    ensures Py.IndexOf([5, 8, 3, 9, 2, 6], 3) == Some(2)
  {
    IndexOfFirst([5, 8, 3, 9, 2, 6], 3, 2);
  }

  lemma SampleMove10Insert()
    ensures Inserted([5, 8, 3, 9, 2, 6], [7, 4, 1], 3) == Moved10
  {
    assert [5, 8, 3, 9, 2, 6][..3] == [5, 8, 3];
    assert [5, 8, 3, 9, 2, 6][3..] == [9, 2, 6];
    assert [5, 8, 3] + [7, 4, 1] + [9, 2, 6] == [5, 8, 3, 7, 4, 1, 9, 2, 6];
  }

  /** Move 10 of the game, at index 0. */
  lemma SampleMove10()
    requires NonNegative(Moved9)
    ensures Move(Moved9, 0) == Some(Ok(Moved10))
  {
    SampleMove10Pick();
    MoveStages(Moved9, 0, [5, 8, 3, 9, 2, 6], [7, 4, 1]);
    SampleMove10Destination();
    SampleMove10Found();
    SampleMove10Insert();
    PlaceBy([5, 8, 3, 9, 2, 6], [7, 4, 1], 5, 3, 2, Moved10);
  }

  lemma SampleFound1()
    ensures Py.IndexOf(Moved1, Sample[0]) == Some(0) && 1 == (0 + 1) % |Moved1|
  {
    assert Sample[0] == 3;
    IndexOfFirst(Moved1, 3, 0);
  }

  lemma SampleRound1()
    requires NonNegative(Sample)
    ensures Round(Sample, 0, Moved1, 1)
  {
    SampleFound1();
    SampleMove1();
  }

  lemma SampleFound2()
    ensures Py.IndexOf(Moved2, Moved1[1]) == Some(1) && 2 == (1 + 1) % |Moved2|
  {
    assert Moved1[1] == 2;
    IndexOfFirst(Moved2, 2, 1);
  }

  lemma SampleRound2()
    requires NonNegative(Moved1)
    ensures Round(Moved1, 1, Moved2, 2)
  {
    SampleFound2();
    SampleMove2();
  }

  lemma SampleFound3()
    ensures Py.IndexOf(Moved3, Moved2[2]) == Some(5) && 6 == (5 + 1) % |Moved3|
  {
    assert Moved2[2] == 5;
    IndexOfFirst(Moved3, 5, 5);
  }

  lemma SampleRound3()
    requires NonNegative(Moved2)
    ensures Round(Moved2, 2, Moved3, 6)
  {
    SampleFound3();
    SampleMove3();
  }

  lemma SampleFound4()
    ensures Py.IndexOf(Moved4, Moved3[6]) == Some(8) && 0 == (8 + 1) % |Moved4|
  {
    assert Moved3[6] == 8;
    IndexOfFirst(Moved4, 8, 8);
  }

  lemma SampleRound4()
    requires NonNegative(Moved3)
    ensures Round(Moved3, 6, Moved4, 0)
  {
    SampleFound4();
    SampleMove4();
  }

  lemma SampleFound5()
    ensures Py.IndexOf(Moved5, Moved4[0]) == Some(0) && 1 == (0 + 1) % |Moved5|
  {
    assert Moved4[0] == 4;
    IndexOfFirst(Moved5, 4, 0);
  }

  lemma SampleRound5()
    requires NonNegative(Moved4)
    ensures Round(Moved4, 0, Moved5, 1)
  {
    SampleFound5();
    SampleMove5();
  }

  lemma SampleFound6()
    ensures Py.IndexOf(Moved6, Moved5[1]) == Some(1) && 2 == (1 + 1) % |Moved6|
  {
    assert Moved5[1] == 1;
    IndexOfFirst(Moved6, 1, 1);
  }

  lemma SampleRound6()
    requires NonNegative(Moved5)
    ensures Round(Moved5, 1, Moved6, 2)
  {
    SampleFound6();
    SampleMove6();
  }

  lemma SampleFound7()
    ensures Py.IndexOf(Moved7, Moved6[2]) == Some(2) && 3 == (2 + 1) % |Moved7|
  {
    assert Moved6[2] == 9;
    IndexOfFirst(Moved7, 9, 2);
  }

  lemma SampleRound7()
    requires NonNegative(Moved6)
    ensures Round(Moved6, 2, Moved7, 3)
  {
    SampleFound7();
    SampleMove7();
  }

  lemma SampleFound8()
    ensures Py.IndexOf(Moved8, Moved7[3]) == Some(6) && 7 == (6 + 1) % |Moved8|
  {
    assert Moved7[3] == 2;
    IndexOfFirst(Moved8, 2, 6);
  }

  lemma SampleRound8()
    requires NonNegative(Moved7)
    ensures Round(Moved7, 3, Moved8, 7)
  {
    SampleFound8();
    SampleMove8();
  }

  lemma SampleFound9()
    ensures Py.IndexOf(Moved9, Moved8[7]) == Some(8) && 0 == (8 + 1) % |Moved9|
  {
    assert Moved8[7] == 6;
    IndexOfFirst(Moved9, 6, 8);
  }

  lemma SampleRound9()
    requires NonNegative(Moved8)
    ensures Round(Moved8, 7, Moved9, 0)
  {
    SampleFound9();
    SampleMove9();
  }

  lemma SampleFound10()
    ensures Py.IndexOf(Moved10, Moved9[0]) == Some(0) && 1 == (0 + 1) % |Moved10|
  {
    assert Moved9[0] == 5;
    IndexOfFirst(Moved10, 5, 0);
  }

  lemma SampleRound10()
    requires NonNegative(Moved9)
    ensures Round(Moved9, 0, Moved10, 1)
  {
    SampleFound10();
    SampleMove10();
  }

  /** Rounds 10 to 10 of the sample game. */
  lemma SamplePlayFrom10()
    requires NonNegative(Moved9)
    ensures Play(Moved9, 0, 1) == Some(Ok(Shuffled))
  {
    SampleRound10();
    PlayRound(Moved9, 0, Moved10, 1, 1);
    assert Moved10 == Shuffled;
  }

  /** Rounds 9 to 10 of the sample game. */
  lemma SamplePlayFrom9()
    requires NonNegative(Moved8)
    ensures Play(Moved8, 7, 2) == Some(Ok(Shuffled))
  {
    SampleRound9();
    PlayRound(Moved8, 7, Moved9, 0, 2);
    SamplePlayFrom10();
  }

  /** Rounds 8 to 10 of the sample game. */
  lemma SamplePlayFrom8()
    requires NonNegative(Moved7)
    ensures Play(Moved7, 3, 3) == Some(Ok(Shuffled))
  {
    SampleRound8();
    PlayRound(Moved7, 3, Moved8, 7, 3);
    SamplePlayFrom9();
  }

  /** Rounds 7 to 10 of the sample game. */
  lemma SamplePlayFrom7()
    requires NonNegative(Moved6)
    ensures Play(Moved6, 2, 4) == Some(Ok(Shuffled))
  {
    SampleRound7();
    PlayRound(Moved6, 2, Moved7, 3, 4);
    SamplePlayFrom8();
  }

  /** Rounds 6 to 10 of the sample game. */
  lemma SamplePlayFrom6()
    requires NonNegative(Moved5)
    ensures Play(Moved5, 1, 5) == Some(Ok(Shuffled))
  {
    SampleRound6();
    PlayRound(Moved5, 1, Moved6, 2, 5);
    SamplePlayFrom7();
  }

  /** Rounds 5 to 10 of the sample game. */
  lemma SamplePlayFrom5()
    requires NonNegative(Moved4)
    ensures Play(Moved4, 0, 6) == Some(Ok(Shuffled))
  {
    SampleRound5();
    PlayRound(Moved4, 0, Moved5, 1, 6);
    SamplePlayFrom6();
  }

  /** Rounds 4 to 10 of the sample game. */
  lemma SamplePlayFrom4()
    requires NonNegative(Moved3)
    ensures Play(Moved3, 6, 7) == Some(Ok(Shuffled))
  {
    SampleRound4();
    PlayRound(Moved3, 6, Moved4, 0, 7);
    SamplePlayFrom5();
  }

  /** Rounds 3 to 10 of the sample game. */
  lemma SamplePlayFrom3()
    requires NonNegative(Moved2)
    ensures Play(Moved2, 2, 8) == Some(Ok(Shuffled))
  {
    SampleRound3();
    PlayRound(Moved2, 2, Moved3, 6, 8);
    SamplePlayFrom4();
  }

  /** Rounds 2 to 10 of the sample game. */
  lemma SamplePlayFrom2()
    requires NonNegative(Moved1)
    ensures Play(Moved1, 1, 9) == Some(Ok(Shuffled))
  {
    SampleRound2();
    PlayRound(Moved1, 1, Moved2, 2, 9);
    SamplePlayFrom3();
  }

  /** Ten rounds of `play_game` from index 0 leave the circle of `test_cups_after`. */
  lemma SamplePlayTen()
    ensures Play(Sample, 0, 10) == Some(Ok(Shuffled))
  {
    assert NonNegative(Sample);
    SampleRound1();
    PlayRound(Sample, 0, Moved1, 1, 10);
    SamplePlayFrom2();
  }

  /** `test_play_game`'s 10-round case: the cups after 1 are 9, 2, 6, 5, 8, 3, 7, 4. */
  lemma SampleGame()
    ensures Play(Sample, 0, 10).Some? && Play(Sample, 0, 10).value.Ok?
    ensures CupsAfter(Play(Sample, 0, 10).value.value, 1) == Ok([9, 2, 6, 5, 8, 3, 7, 4])
  {
    SamplePlayTen();
    SampleCupsAfter();
  }
}
