/**
 * The card game on the decks of the script's tests, played out round by round:
 * the plain game's score of 306 and the recursive game's result (1, 291).
 */
module CombatExamples {
  import opened Base
  import opened Combat

  lemma ScoreEmpty()
    ensures Score([]) == 0
  {
    var none := seq(0, i requires 0 <= i < 0 => i);
    assert none == [];
  }

  lemma FinalScore()
    ensures Score([3, 2, 10, 6, 8, 5, 9, 4, 7, 1]) == 306
  {
    ScoreEmpty();
    ScoreCons(1, []);
    assert [1] + [] == [1];
    ScoreCons(7, [1]);
    assert [7] + [1] == [7, 1];
    ScoreCons(4, [7, 1]);
    assert [4] + [7, 1] == [4, 7, 1];
    ScoreCons(9, [4, 7, 1]);
    assert [9] + [4, 7, 1] == [9, 4, 7, 1];
    ScoreCons(5, [9, 4, 7, 1]);
    assert [5] + [9, 4, 7, 1] == [5, 9, 4, 7, 1];
    ScoreCons(8, [5, 9, 4, 7, 1]);
    assert [8] + [5, 9, 4, 7, 1] == [8, 5, 9, 4, 7, 1];
    ScoreCons(6, [8, 5, 9, 4, 7, 1]);
    assert [6] + [8, 5, 9, 4, 7, 1] == [6, 8, 5, 9, 4, 7, 1];
    ScoreCons(10, [6, 8, 5, 9, 4, 7, 1]);
    assert [10] + [6, 8, 5, 9, 4, 7, 1] == [10, 6, 8, 5, 9, 4, 7, 1];
    ScoreCons(2, [10, 6, 8, 5, 9, 4, 7, 1]);
    assert [2] + [10, 6, 8, 5, 9, 4, 7, 1] == [2, 10, 6, 8, 5, 9, 4, 7, 1];
    ScoreCons(3, [2, 10, 6, 8, 5, 9, 4, 7, 1]);
    assert [3] + [2, 10, 6, 8, 5, 9, 4, 7, 1] == [3, 2, 10, 6, 8, 5, 9, 4, 7, 1];
  }
  lemma FinalRecursiveScore()
    ensures Score([7, 5, 6, 2, 4, 1, 10, 8, 9, 3]) == 291
  {
    ScoreEmpty();
    ScoreCons(3, []);
    assert [3] + [] == [3];
    ScoreCons(9, [3]);
    assert [9] + [3] == [9, 3];
    ScoreCons(8, [9, 3]);
    assert [8] + [9, 3] == [8, 9, 3];
    ScoreCons(10, [8, 9, 3]);
    assert [10] + [8, 9, 3] == [10, 8, 9, 3];
    ScoreCons(1, [10, 8, 9, 3]);
    assert [1] + [10, 8, 9, 3] == [1, 10, 8, 9, 3];
    ScoreCons(4, [1, 10, 8, 9, 3]);
    assert [4] + [1, 10, 8, 9, 3] == [4, 1, 10, 8, 9, 3];
    ScoreCons(2, [4, 1, 10, 8, 9, 3]);
    assert [2] + [4, 1, 10, 8, 9, 3] == [2, 4, 1, 10, 8, 9, 3];
    ScoreCons(6, [2, 4, 1, 10, 8, 9, 3]);
    assert [6] + [2, 4, 1, 10, 8, 9, 3] == [6, 2, 4, 1, 10, 8, 9, 3];
    ScoreCons(5, [6, 2, 4, 1, 10, 8, 9, 3]);
    assert [5] + [6, 2, 4, 1, 10, 8, 9, 3] == [5, 6, 2, 4, 1, 10, 8, 9, 3];
    ScoreCons(7, [5, 6, 2, 4, 1, 10, 8, 9, 3]);
    assert [7] + [5, 6, 2, 4, 1, 10, 8, 9, 3] == [7, 5, 6, 2, 4, 1, 10, 8, 9, 3];
  }
  // ---------------------------------------------------------------- the plain game

  lemma SamplePlayRound1()
    ensures Play([9, 2, 6, 3, 1], [5, 8, 4, 7, 10], 29) == Play([2, 6, 3, 1, 9, 5], [8, 4, 7, 10], 28)
  {
    assert [9, 2, 6, 3, 1][1..] == [2, 6, 3, 1];
    assert [5, 8, 4, 7, 10][1..] == [8, 4, 7, 10];
    assert [2, 6, 3, 1] + [9, 5] == [2, 6, 3, 1, 9, 5];
    assert [8, 4, 7, 10] + [5, 9] == [8, 4, 7, 10, 5, 9];
    assert Round([9, 2, 6, 3, 1], [5, 8, 4, 7, 10]) == Ok(([2, 6, 3, 1, 9, 5], [8, 4, 7, 10]));
    PlayStep([9, 2, 6, 3, 1], [5, 8, 4, 7, 10], 29, [2, 6, 3, 1, 9, 5], [8, 4, 7, 10]);
  }

  lemma SamplePlayRound2()
    ensures Play([2, 6, 3, 1, 9, 5], [8, 4, 7, 10], 28) == Play([6, 3, 1, 9, 5], [4, 7, 10, 8, 2], 27)
  {
    assert [2, 6, 3, 1, 9, 5][1..] == [6, 3, 1, 9, 5];
    assert [8, 4, 7, 10][1..] == [4, 7, 10];
    assert [6, 3, 1, 9, 5] + [2, 8] == [6, 3, 1, 9, 5, 2, 8];
    assert [4, 7, 10] + [8, 2] == [4, 7, 10, 8, 2];
    assert Round([2, 6, 3, 1, 9, 5], [8, 4, 7, 10]) == Ok(([6, 3, 1, 9, 5], [4, 7, 10, 8, 2]));
    PlayStep([2, 6, 3, 1, 9, 5], [8, 4, 7, 10], 28, [6, 3, 1, 9, 5], [4, 7, 10, 8, 2]);
  }

  lemma SamplePlayRound3()
    ensures Play([6, 3, 1, 9, 5], [4, 7, 10, 8, 2], 27) == Play([3, 1, 9, 5, 6, 4], [7, 10, 8, 2], 26)
  {
    assert [6, 3, 1, 9, 5][1..] == [3, 1, 9, 5];
    assert [4, 7, 10, 8, 2][1..] == [7, 10, 8, 2];
    assert [3, 1, 9, 5] + [6, 4] == [3, 1, 9, 5, 6, 4];
    assert [7, 10, 8, 2] + [4, 6] == [7, 10, 8, 2, 4, 6];
    assert Round([6, 3, 1, 9, 5], [4, 7, 10, 8, 2]) == Ok(([3, 1, 9, 5, 6, 4], [7, 10, 8, 2]));
    PlayStep([6, 3, 1, 9, 5], [4, 7, 10, 8, 2], 27, [3, 1, 9, 5, 6, 4], [7, 10, 8, 2]);
  }

  lemma SamplePlayRound4()
    ensures Play([3, 1, 9, 5, 6, 4], [7, 10, 8, 2], 26) == Play([1, 9, 5, 6, 4], [10, 8, 2, 7, 3], 25)
  {
    assert [3, 1, 9, 5, 6, 4][1..] == [1, 9, 5, 6, 4];
    assert [7, 10, 8, 2][1..] == [10, 8, 2];
    assert [1, 9, 5, 6, 4] + [3, 7] == [1, 9, 5, 6, 4, 3, 7];
    assert [10, 8, 2] + [7, 3] == [10, 8, 2, 7, 3];
    assert Round([3, 1, 9, 5, 6, 4], [7, 10, 8, 2]) == Ok(([1, 9, 5, 6, 4], [10, 8, 2, 7, 3]));
    PlayStep([3, 1, 9, 5, 6, 4], [7, 10, 8, 2], 26, [1, 9, 5, 6, 4], [10, 8, 2, 7, 3]);
  }

  lemma SamplePlayRound5()
    ensures Play([1, 9, 5, 6, 4], [10, 8, 2, 7, 3], 25) == Play([9, 5, 6, 4], [8, 2, 7, 3, 10, 1], 24)
  {
    assert [1, 9, 5, 6, 4][1..] == [9, 5, 6, 4];
    assert [10, 8, 2, 7, 3][1..] == [8, 2, 7, 3];
    assert [9, 5, 6, 4] + [1, 10] == [9, 5, 6, 4, 1, 10];
    assert [8, 2, 7, 3] + [10, 1] == [8, 2, 7, 3, 10, 1];
    assert Round([1, 9, 5, 6, 4], [10, 8, 2, 7, 3]) == Ok(([9, 5, 6, 4], [8, 2, 7, 3, 10, 1]));
    PlayStep([1, 9, 5, 6, 4], [10, 8, 2, 7, 3], 25, [9, 5, 6, 4], [8, 2, 7, 3, 10, 1]);
  }

  lemma SamplePlayRound6()
    ensures Play([9, 5, 6, 4], [8, 2, 7, 3, 10, 1], 24) == Play([5, 6, 4, 9, 8], [2, 7, 3, 10, 1], 23)
  {
    assert [9, 5, 6, 4][1..] == [5, 6, 4];
    assert [8, 2, 7, 3, 10, 1][1..] == [2, 7, 3, 10, 1];
    assert [5, 6, 4] + [9, 8] == [5, 6, 4, 9, 8];
    assert [2, 7, 3, 10, 1] + [8, 9] == [2, 7, 3, 10, 1, 8, 9];
    assert Round([9, 5, 6, 4], [8, 2, 7, 3, 10, 1]) == Ok(([5, 6, 4, 9, 8], [2, 7, 3, 10, 1]));
    PlayStep([9, 5, 6, 4], [8, 2, 7, 3, 10, 1], 24, [5, 6, 4, 9, 8], [2, 7, 3, 10, 1]);
  }

  lemma SamplePlayRound7()
    ensures Play([5, 6, 4, 9, 8], [2, 7, 3, 10, 1], 23) == Play([6, 4, 9, 8, 5, 2], [7, 3, 10, 1], 22)
  {
    assert [5, 6, 4, 9, 8][1..] == [6, 4, 9, 8];
    assert [2, 7, 3, 10, 1][1..] == [7, 3, 10, 1];
    assert [6, 4, 9, 8] + [5, 2] == [6, 4, 9, 8, 5, 2];
    assert [7, 3, 10, 1] + [2, 5] == [7, 3, 10, 1, 2, 5];
    assert Round([5, 6, 4, 9, 8], [2, 7, 3, 10, 1]) == Ok(([6, 4, 9, 8, 5, 2], [7, 3, 10, 1]));
    PlayStep([5, 6, 4, 9, 8], [2, 7, 3, 10, 1], 23, [6, 4, 9, 8, 5, 2], [7, 3, 10, 1]);
  }

  lemma SamplePlayRound8()
    ensures Play([6, 4, 9, 8, 5, 2], [7, 3, 10, 1], 22) == Play([4, 9, 8, 5, 2], [3, 10, 1, 7, 6], 21)
  {
    assert [6, 4, 9, 8, 5, 2][1..] == [4, 9, 8, 5, 2];
    assert [7, 3, 10, 1][1..] == [3, 10, 1];
    assert [4, 9, 8, 5, 2] + [6, 7] == [4, 9, 8, 5, 2, 6, 7];
    assert [3, 10, 1] + [7, 6] == [3, 10, 1, 7, 6];
    assert Round([6, 4, 9, 8, 5, 2], [7, 3, 10, 1]) == Ok(([4, 9, 8, 5, 2], [3, 10, 1, 7, 6]));
    PlayStep([6, 4, 9, 8, 5, 2], [7, 3, 10, 1], 22, [4, 9, 8, 5, 2], [3, 10, 1, 7, 6]);
  }

  lemma SamplePlayRound9()
    ensures Play([4, 9, 8, 5, 2], [3, 10, 1, 7, 6], 21) == Play([9, 8, 5, 2, 4, 3], [10, 1, 7, 6], 20)
  {
    assert [4, 9, 8, 5, 2][1..] == [9, 8, 5, 2];
    assert [3, 10, 1, 7, 6][1..] == [10, 1, 7, 6];
    assert [9, 8, 5, 2] + [4, 3] == [9, 8, 5, 2, 4, 3];
    assert [10, 1, 7, 6] + [3, 4] == [10, 1, 7, 6, 3, 4];
    assert Round([4, 9, 8, 5, 2], [3, 10, 1, 7, 6]) == Ok(([9, 8, 5, 2, 4, 3], [10, 1, 7, 6]));
    PlayStep([4, 9, 8, 5, 2], [3, 10, 1, 7, 6], 21, [9, 8, 5, 2, 4, 3], [10, 1, 7, 6]);
  }

  lemma SamplePlayRound10()
    ensures Play([9, 8, 5, 2, 4, 3], [10, 1, 7, 6], 20) == Play([8, 5, 2, 4, 3], [1, 7, 6, 10, 9], 19)
  {
    assert [9, 8, 5, 2, 4, 3][1..] == [8, 5, 2, 4, 3];
    assert [10, 1, 7, 6][1..] == [1, 7, 6];
    assert [8, 5, 2, 4, 3] + [9, 10] == [8, 5, 2, 4, 3, 9, 10];
    assert [1, 7, 6] + [10, 9] == [1, 7, 6, 10, 9];
    assert Round([9, 8, 5, 2, 4, 3], [10, 1, 7, 6]) == Ok(([8, 5, 2, 4, 3], [1, 7, 6, 10, 9]));
    PlayStep([9, 8, 5, 2, 4, 3], [10, 1, 7, 6], 20, [8, 5, 2, 4, 3], [1, 7, 6, 10, 9]);
  }

  lemma SamplePlayRound11()
    ensures Play([8, 5, 2, 4, 3], [1, 7, 6, 10, 9], 19) == Play([5, 2, 4, 3, 8, 1], [7, 6, 10, 9], 18)
  {
    assert [8, 5, 2, 4, 3][1..] == [5, 2, 4, 3];
    assert [1, 7, 6, 10, 9][1..] == [7, 6, 10, 9];
    assert [5, 2, 4, 3] + [8, 1] == [5, 2, 4, 3, 8, 1];
    assert [7, 6, 10, 9] + [1, 8] == [7, 6, 10, 9, 1, 8];
    assert Round([8, 5, 2, 4, 3], [1, 7, 6, 10, 9]) == Ok(([5, 2, 4, 3, 8, 1], [7, 6, 10, 9]));
    PlayStep([8, 5, 2, 4, 3], [1, 7, 6, 10, 9], 19, [5, 2, 4, 3, 8, 1], [7, 6, 10, 9]);
  }

  lemma SamplePlayRound12()
    ensures Play([5, 2, 4, 3, 8, 1], [7, 6, 10, 9], 18) == Play([2, 4, 3, 8, 1], [6, 10, 9, 7, 5], 17)
  {
    assert [5, 2, 4, 3, 8, 1][1..] == [2, 4, 3, 8, 1];
    assert [7, 6, 10, 9][1..] == [6, 10, 9];
    assert [2, 4, 3, 8, 1] + [5, 7] == [2, 4, 3, 8, 1, 5, 7];
    assert [6, 10, 9] + [7, 5] == [6, 10, 9, 7, 5];
    assert Round([5, 2, 4, 3, 8, 1], [7, 6, 10, 9]) == Ok(([2, 4, 3, 8, 1], [6, 10, 9, 7, 5]));
    PlayStep([5, 2, 4, 3, 8, 1], [7, 6, 10, 9], 18, [2, 4, 3, 8, 1], [6, 10, 9, 7, 5]);
  }

  lemma SamplePlayRound13()
    ensures Play([2, 4, 3, 8, 1], [6, 10, 9, 7, 5], 17) == Play([4, 3, 8, 1], [10, 9, 7, 5, 6, 2], 16)
  {
    assert [2, 4, 3, 8, 1][1..] == [4, 3, 8, 1];
    assert [6, 10, 9, 7, 5][1..] == [10, 9, 7, 5];
    assert [4, 3, 8, 1] + [2, 6] == [4, 3, 8, 1, 2, 6];
    assert [10, 9, 7, 5] + [6, 2] == [10, 9, 7, 5, 6, 2];
    assert Round([2, 4, 3, 8, 1], [6, 10, 9, 7, 5]) == Ok(([4, 3, 8, 1], [10, 9, 7, 5, 6, 2]));
    PlayStep([2, 4, 3, 8, 1], [6, 10, 9, 7, 5], 17, [4, 3, 8, 1], [10, 9, 7, 5, 6, 2]);
  }

  lemma SamplePlayRound14()
    ensures Play([4, 3, 8, 1], [10, 9, 7, 5, 6, 2], 16) == Play([3, 8, 1], [9, 7, 5, 6, 2, 10, 4], 15)
  {
    assert [4, 3, 8, 1][1..] == [3, 8, 1];
    assert [10, 9, 7, 5, 6, 2][1..] == [9, 7, 5, 6, 2];
    assert [3, 8, 1] + [4, 10] == [3, 8, 1, 4, 10];
    assert [9, 7, 5, 6, 2] + [10, 4] == [9, 7, 5, 6, 2, 10, 4];
    assert Round([4, 3, 8, 1], [10, 9, 7, 5, 6, 2]) == Ok(([3, 8, 1], [9, 7, 5, 6, 2, 10, 4]));
    PlayStep([4, 3, 8, 1], [10, 9, 7, 5, 6, 2], 16, [3, 8, 1], [9, 7, 5, 6, 2, 10, 4]);
  }

  lemma SamplePlayRound15()
    ensures Play([3, 8, 1], [9, 7, 5, 6, 2, 10, 4], 15) == Play([8, 1], [7, 5, 6, 2, 10, 4, 9, 3], 14)
  {
    assert [3, 8, 1][1..] == [8, 1];
    assert [9, 7, 5, 6, 2, 10, 4][1..] == [7, 5, 6, 2, 10, 4];
    assert [8, 1] + [3, 9] == [8, 1, 3, 9];
    assert [7, 5, 6, 2, 10, 4] + [9, 3] == [7, 5, 6, 2, 10, 4, 9, 3];
    assert Round([3, 8, 1], [9, 7, 5, 6, 2, 10, 4]) == Ok(([8, 1], [7, 5, 6, 2, 10, 4, 9, 3]));
    PlayStep([3, 8, 1], [9, 7, 5, 6, 2, 10, 4], 15, [8, 1], [7, 5, 6, 2, 10, 4, 9, 3]);
  }

  lemma SamplePlayRound16()
    ensures Play([8, 1], [7, 5, 6, 2, 10, 4, 9, 3], 14) == Play([1, 8, 7], [5, 6, 2, 10, 4, 9, 3], 13)
  {
    assert [8, 1][1..] == [1];
    assert [7, 5, 6, 2, 10, 4, 9, 3][1..] == [5, 6, 2, 10, 4, 9, 3];
    assert [1] + [8, 7] == [1, 8, 7];
    assert [5, 6, 2, 10, 4, 9, 3] + [7, 8] == [5, 6, 2, 10, 4, 9, 3, 7, 8];
    assert Round([8, 1], [7, 5, 6, 2, 10, 4, 9, 3]) == Ok(([1, 8, 7], [5, 6, 2, 10, 4, 9, 3]));
    PlayStep([8, 1], [7, 5, 6, 2, 10, 4, 9, 3], 14, [1, 8, 7], [5, 6, 2, 10, 4, 9, 3]);
  }

  lemma SamplePlayRound17()
    ensures Play([1, 8, 7], [5, 6, 2, 10, 4, 9, 3], 13) == Play([8, 7], [6, 2, 10, 4, 9, 3, 5, 1], 12)
  {
    assert [1, 8, 7][1..] == [8, 7];
    assert [5, 6, 2, 10, 4, 9, 3][1..] == [6, 2, 10, 4, 9, 3];
    assert [8, 7] + [1, 5] == [8, 7, 1, 5];
    assert [6, 2, 10, 4, 9, 3] + [5, 1] == [6, 2, 10, 4, 9, 3, 5, 1];
    assert Round([1, 8, 7], [5, 6, 2, 10, 4, 9, 3]) == Ok(([8, 7], [6, 2, 10, 4, 9, 3, 5, 1]));
    PlayStep([1, 8, 7], [5, 6, 2, 10, 4, 9, 3], 13, [8, 7], [6, 2, 10, 4, 9, 3, 5, 1]);
  }

  lemma SamplePlayRound18()
    ensures Play([8, 7], [6, 2, 10, 4, 9, 3, 5, 1], 12) == Play([7, 8, 6], [2, 10, 4, 9, 3, 5, 1], 11)
  {
    assert [8, 7][1..] == [7];
    assert [6, 2, 10, 4, 9, 3, 5, 1][1..] == [2, 10, 4, 9, 3, 5, 1];
    assert [7] + [8, 6] == [7, 8, 6];
    assert [2, 10, 4, 9, 3, 5, 1] + [6, 8] == [2, 10, 4, 9, 3, 5, 1, 6, 8];
    assert Round([8, 7], [6, 2, 10, 4, 9, 3, 5, 1]) == Ok(([7, 8, 6], [2, 10, 4, 9, 3, 5, 1]));
    PlayStep([8, 7], [6, 2, 10, 4, 9, 3, 5, 1], 12, [7, 8, 6], [2, 10, 4, 9, 3, 5, 1]);
  }

  lemma SamplePlayRound19()
    ensures Play([7, 8, 6], [2, 10, 4, 9, 3, 5, 1], 11) == Play([8, 6, 7, 2], [10, 4, 9, 3, 5, 1], 10)
  {
    assert [7, 8, 6][1..] == [8, 6];
    assert [2, 10, 4, 9, 3, 5, 1][1..] == [10, 4, 9, 3, 5, 1];
    assert [8, 6] + [7, 2] == [8, 6, 7, 2];
    assert [10, 4, 9, 3, 5, 1] + [2, 7] == [10, 4, 9, 3, 5, 1, 2, 7];
    assert Round([7, 8, 6], [2, 10, 4, 9, 3, 5, 1]) == Ok(([8, 6, 7, 2], [10, 4, 9, 3, 5, 1]));
    PlayStep([7, 8, 6], [2, 10, 4, 9, 3, 5, 1], 11, [8, 6, 7, 2], [10, 4, 9, 3, 5, 1]);
  }

  lemma SamplePlayRound20()
    ensures Play([8, 6, 7, 2], [10, 4, 9, 3, 5, 1], 10) == Play([6, 7, 2], [4, 9, 3, 5, 1, 10, 8], 9)
  {
    assert [8, 6, 7, 2][1..] == [6, 7, 2];
    assert [10, 4, 9, 3, 5, 1][1..] == [4, 9, 3, 5, 1];
    assert [6, 7, 2] + [8, 10] == [6, 7, 2, 8, 10];
    assert [4, 9, 3, 5, 1] + [10, 8] == [4, 9, 3, 5, 1, 10, 8];
    assert Round([8, 6, 7, 2], [10, 4, 9, 3, 5, 1]) == Ok(([6, 7, 2], [4, 9, 3, 5, 1, 10, 8]));
    PlayStep([8, 6, 7, 2], [10, 4, 9, 3, 5, 1], 10, [6, 7, 2], [4, 9, 3, 5, 1, 10, 8]);
  }

  lemma SamplePlayRound21()
    ensures Play([6, 7, 2], [4, 9, 3, 5, 1, 10, 8], 9) == Play([7, 2, 6, 4], [9, 3, 5, 1, 10, 8], 8)
  {
    assert [6, 7, 2][1..] == [7, 2];
    assert [4, 9, 3, 5, 1, 10, 8][1..] == [9, 3, 5, 1, 10, 8];
    assert [7, 2] + [6, 4] == [7, 2, 6, 4];
    assert [9, 3, 5, 1, 10, 8] + [4, 6] == [9, 3, 5, 1, 10, 8, 4, 6];
    assert Round([6, 7, 2], [4, 9, 3, 5, 1, 10, 8]) == Ok(([7, 2, 6, 4], [9, 3, 5, 1, 10, 8]));
    PlayStep([6, 7, 2], [4, 9, 3, 5, 1, 10, 8], 9, [7, 2, 6, 4], [9, 3, 5, 1, 10, 8]);
  }

  lemma SamplePlayRound22()
    ensures Play([7, 2, 6, 4], [9, 3, 5, 1, 10, 8], 8) == Play([2, 6, 4], [3, 5, 1, 10, 8, 9, 7], 7)
  {
    assert [7, 2, 6, 4][1..] == [2, 6, 4];
    assert [9, 3, 5, 1, 10, 8][1..] == [3, 5, 1, 10, 8];
    assert [2, 6, 4] + [7, 9] == [2, 6, 4, 7, 9];
    assert [3, 5, 1, 10, 8] + [9, 7] == [3, 5, 1, 10, 8, 9, 7];
    assert Round([7, 2, 6, 4], [9, 3, 5, 1, 10, 8]) == Ok(([2, 6, 4], [3, 5, 1, 10, 8, 9, 7]));
    PlayStep([7, 2, 6, 4], [9, 3, 5, 1, 10, 8], 8, [2, 6, 4], [3, 5, 1, 10, 8, 9, 7]);
  }

  lemma SamplePlayRound23()
    ensures Play([2, 6, 4], [3, 5, 1, 10, 8, 9, 7], 7) == Play([6, 4], [5, 1, 10, 8, 9, 7, 3, 2], 6)
  {
    assert [2, 6, 4][1..] == [6, 4];
    assert [3, 5, 1, 10, 8, 9, 7][1..] == [5, 1, 10, 8, 9, 7];
    assert [6, 4] + [2, 3] == [6, 4, 2, 3];
    assert [5, 1, 10, 8, 9, 7] + [3, 2] == [5, 1, 10, 8, 9, 7, 3, 2];
    assert Round([2, 6, 4], [3, 5, 1, 10, 8, 9, 7]) == Ok(([6, 4], [5, 1, 10, 8, 9, 7, 3, 2]));
    PlayStep([2, 6, 4], [3, 5, 1, 10, 8, 9, 7], 7, [6, 4], [5, 1, 10, 8, 9, 7, 3, 2]);
  }

  lemma SamplePlayRound24()
    ensures Play([6, 4], [5, 1, 10, 8, 9, 7, 3, 2], 6) == Play([4, 6, 5], [1, 10, 8, 9, 7, 3, 2], 5)
  {
    assert [6, 4][1..] == [4];
    assert [5, 1, 10, 8, 9, 7, 3, 2][1..] == [1, 10, 8, 9, 7, 3, 2];
    assert [4] + [6, 5] == [4, 6, 5];
    assert [1, 10, 8, 9, 7, 3, 2] + [5, 6] == [1, 10, 8, 9, 7, 3, 2, 5, 6];
    assert Round([6, 4], [5, 1, 10, 8, 9, 7, 3, 2]) == Ok(([4, 6, 5], [1, 10, 8, 9, 7, 3, 2]));
    PlayStep([6, 4], [5, 1, 10, 8, 9, 7, 3, 2], 6, [4, 6, 5], [1, 10, 8, 9, 7, 3, 2]);
  }

  lemma SamplePlayRound25()
    ensures Play([4, 6, 5], [1, 10, 8, 9, 7, 3, 2], 5) == Play([6, 5, 4, 1], [10, 8, 9, 7, 3, 2], 4)
  {
    assert [4, 6, 5][1..] == [6, 5];
    assert [1, 10, 8, 9, 7, 3, 2][1..] == [10, 8, 9, 7, 3, 2];
    assert [6, 5] + [4, 1] == [6, 5, 4, 1];
    assert [10, 8, 9, 7, 3, 2] + [1, 4] == [10, 8, 9, 7, 3, 2, 1, 4];
    assert Round([4, 6, 5], [1, 10, 8, 9, 7, 3, 2]) == Ok(([6, 5, 4, 1], [10, 8, 9, 7, 3, 2]));
    PlayStep([4, 6, 5], [1, 10, 8, 9, 7, 3, 2], 5, [6, 5, 4, 1], [10, 8, 9, 7, 3, 2]);
  }

  lemma SamplePlayRound26()
    ensures Play([6, 5, 4, 1], [10, 8, 9, 7, 3, 2], 4) == Play([5, 4, 1], [8, 9, 7, 3, 2, 10, 6], 3)
  {
    assert [6, 5, 4, 1][1..] == [5, 4, 1];
    assert [10, 8, 9, 7, 3, 2][1..] == [8, 9, 7, 3, 2];
    assert [5, 4, 1] + [6, 10] == [5, 4, 1, 6, 10];
    assert [8, 9, 7, 3, 2] + [10, 6] == [8, 9, 7, 3, 2, 10, 6];
    assert Round([6, 5, 4, 1], [10, 8, 9, 7, 3, 2]) == Ok(([5, 4, 1], [8, 9, 7, 3, 2, 10, 6]));
    PlayStep([6, 5, 4, 1], [10, 8, 9, 7, 3, 2], 4, [5, 4, 1], [8, 9, 7, 3, 2, 10, 6]);
  }

  lemma SamplePlayRound27()
    ensures Play([5, 4, 1], [8, 9, 7, 3, 2, 10, 6], 3) == Play([4, 1], [9, 7, 3, 2, 10, 6, 8, 5], 2)
  {
    assert [5, 4, 1][1..] == [4, 1];
    assert [8, 9, 7, 3, 2, 10, 6][1..] == [9, 7, 3, 2, 10, 6];
    assert [4, 1] + [5, 8] == [4, 1, 5, 8];
    assert [9, 7, 3, 2, 10, 6] + [8, 5] == [9, 7, 3, 2, 10, 6, 8, 5];
    assert Round([5, 4, 1], [8, 9, 7, 3, 2, 10, 6]) == Ok(([4, 1], [9, 7, 3, 2, 10, 6, 8, 5]));
    PlayStep([5, 4, 1], [8, 9, 7, 3, 2, 10, 6], 3, [4, 1], [9, 7, 3, 2, 10, 6, 8, 5]);
  }

  lemma SamplePlayRound28()
    ensures Play([4, 1], [9, 7, 3, 2, 10, 6, 8, 5], 2) == Play([1], [7, 3, 2, 10, 6, 8, 5, 9, 4], 1)
  {
    assert [4, 1][1..] == [1];
    assert [9, 7, 3, 2, 10, 6, 8, 5][1..] == [7, 3, 2, 10, 6, 8, 5];
    assert [1] + [4, 9] == [1, 4, 9];
    assert [7, 3, 2, 10, 6, 8, 5] + [9, 4] == [7, 3, 2, 10, 6, 8, 5, 9, 4];
    assert Round([4, 1], [9, 7, 3, 2, 10, 6, 8, 5]) == Ok(([1], [7, 3, 2, 10, 6, 8, 5, 9, 4]));
    PlayStep([4, 1], [9, 7, 3, 2, 10, 6, 8, 5], 2, [1], [7, 3, 2, 10, 6, 8, 5, 9, 4]);
  }

  lemma SamplePlayRound29()
    ensures Play([1], [7, 3, 2, 10, 6, 8, 5, 9, 4], 1) == Play([], [3, 2, 10, 6, 8, 5, 9, 4, 7, 1], 0)
  {
    assert [1][1..] == [];
    assert [7, 3, 2, 10, 6, 8, 5, 9, 4][1..] == [3, 2, 10, 6, 8, 5, 9, 4];
    assert [] + [1, 7] == [1, 7];
    assert [3, 2, 10, 6, 8, 5, 9, 4] + [7, 1] == [3, 2, 10, 6, 8, 5, 9, 4, 7, 1];
    assert Round([1], [7, 3, 2, 10, 6, 8, 5, 9, 4]) == Ok(([], [3, 2, 10, 6, 8, 5, 9, 4, 7, 1]));
    PlayStep([1], [7, 3, 2, 10, 6, 8, 5, 9, 4], 1, [], [3, 2, 10, 6, 8, 5, 9, 4, 7, 1]);
  }

  /** Player 2 wins the plain game on the sample decks after 29 rounds, with a score of 306. */
  lemma SamplePlay()
    ensures Play([9, 2, 6, 3, 1], [5, 8, 4, 7, 10], 29) == Some(Ok(([], [3, 2, 10, 6, 8, 5, 9, 4, 7, 1])))
    ensures GameScore([9, 2, 6, 3, 1], [5, 8, 4, 7, 10], 29) == Some(Ok(306))
  {
    SamplePlayRound1();
    SamplePlayRound2();
    SamplePlayRound3();
    SamplePlayRound4();
    SamplePlayRound5();
    SamplePlayRound6();
    SamplePlayRound7();
    SamplePlayRound8();
    SamplePlayRound9();
    SamplePlayRound10();
    SamplePlayRound11();
    SamplePlayRound12();
    SamplePlayRound13();
    SamplePlayRound14();
    SamplePlayRound15();
    SamplePlayRound16();
    SamplePlayRound17();
    SamplePlayRound18();
    SamplePlayRound19();
    SamplePlayRound20();
    SamplePlayRound21();
    SamplePlayRound22();
    SamplePlayRound23();
    SamplePlayRound24();
    SamplePlayRound25();
    SamplePlayRound26();
    SamplePlayRound27();
    SamplePlayRound28();
    SamplePlayRound29();
    FinalScore();
  }

  // ---------------------------------------------------------------- the recursive game

  lemma SampleRecursiveRound1()
    ensures RecGame([9, 2, 6, 3, 1], [5, 8, 4, 7, 10], {}, 20)
         == RecGame([2, 6, 3, 1, 9, 5], [8, 4, 7, 10], {([9, 2, 6, 3, 1], [5, 8, 4, 7, 10])}, 19)
  {
    RecRoundPlain([9, 2, 6, 3, 1], [5, 8, 4, 7, 10], 19);
    assert [9, 2, 6, 3, 1][1..] == [2, 6, 3, 1];
    assert [5, 8, 4, 7, 10][1..] == [8, 4, 7, 10];
    assert [2, 6, 3, 1] + [9, 5] == [2, 6, 3, 1, 9, 5];
    assert [8, 4, 7, 10] + [5, 9] == [8, 4, 7, 10, 5, 9];
    assert RecRound([9, 2, 6, 3, 1], [5, 8, 4, 7, 10], 19) == Some(Ok(([2, 6, 3, 1, 9, 5], [8, 4, 7, 10])));
    RecGameStep([9, 2, 6, 3, 1], [5, 8, 4, 7, 10], {}, 20, [2, 6, 3, 1, 9, 5], [8, 4, 7, 10]);
    assert {} + {([9, 2, 6, 3, 1], [5, 8, 4, 7, 10])} == {([9, 2, 6, 3, 1], [5, 8, 4, 7, 10])};
  }

  lemma SampleRecursiveRound2()
    ensures RecGame([2, 6, 3, 1, 9, 5], [8, 4, 7, 10], {([9, 2, 6, 3, 1], [5, 8, 4, 7, 10])}, 19)
         == RecGame([6, 3, 1, 9, 5], [4, 7, 10, 8, 2], {([9, 2, 6, 3, 1], [5, 8, 4, 7, 10]), ([2, 6, 3, 1, 9, 5], [8, 4, 7, 10])}, 18)
  {
    RecRoundPlain([2, 6, 3, 1, 9, 5], [8, 4, 7, 10], 18);
    assert [2, 6, 3, 1, 9, 5][1..] == [6, 3, 1, 9, 5];
    assert [8, 4, 7, 10][1..] == [4, 7, 10];
    assert [6, 3, 1, 9, 5] + [2, 8] == [6, 3, 1, 9, 5, 2, 8];
    assert [4, 7, 10] + [8, 2] == [4, 7, 10, 8, 2];
    assert RecRound([2, 6, 3, 1, 9, 5], [8, 4, 7, 10], 18) == Some(Ok(([6, 3, 1, 9, 5], [4, 7, 10, 8, 2])));
    assert |[2, 6, 3, 1, 9, 5]| != |[9, 2, 6, 3, 1]|;
    RecGameStep([2, 6, 3, 1, 9, 5], [8, 4, 7, 10], {([9, 2, 6, 3, 1], [5, 8, 4, 7, 10])}, 19, [6, 3, 1, 9, 5], [4, 7, 10, 8, 2]);
    assert {([9, 2, 6, 3, 1], [5, 8, 4, 7, 10])} + {([2, 6, 3, 1, 9, 5], [8, 4, 7, 10])} == {([9, 2, 6, 3, 1], [5, 8, 4, 7, 10]), ([2, 6, 3, 1, 9, 5], [8, 4, 7, 10])};
  }

  lemma SampleRecursiveRound3()
    ensures RecGame([6, 3, 1, 9, 5], [4, 7, 10, 8, 2], {([9, 2, 6, 3, 1], [5, 8, 4, 7, 10]), ([2, 6, 3, 1, 9, 5], [8, 4, 7, 10])}, 18)
         == RecGame([3, 1, 9, 5, 6, 4], [7, 10, 8, 2], {([9, 2, 6, 3, 1], [5, 8, 4, 7, 10]), ([2, 6, 3, 1, 9, 5], [8, 4, 7, 10]), ([6, 3, 1, 9, 5], [4, 7, 10, 8, 2])}, 17)
  {
    RecRoundPlain([6, 3, 1, 9, 5], [4, 7, 10, 8, 2], 17);
    assert [6, 3, 1, 9, 5][1..] == [3, 1, 9, 5];
    assert [4, 7, 10, 8, 2][1..] == [7, 10, 8, 2];
    assert [3, 1, 9, 5] + [6, 4] == [3, 1, 9, 5, 6, 4];
    assert [7, 10, 8, 2] + [4, 6] == [7, 10, 8, 2, 4, 6];
    assert RecRound([6, 3, 1, 9, 5], [4, 7, 10, 8, 2], 17) == Some(Ok(([3, 1, 9, 5, 6, 4], [7, 10, 8, 2])));
    assert [6, 3, 1, 9, 5][0] != [9, 2, 6, 3, 1][0];
    assert |[6, 3, 1, 9, 5]| != |[2, 6, 3, 1, 9, 5]|;
    RecGameStep([6, 3, 1, 9, 5], [4, 7, 10, 8, 2], {([9, 2, 6, 3, 1], [5, 8, 4, 7, 10]), ([2, 6, 3, 1, 9, 5], [8, 4, 7, 10])}, 18, [3, 1, 9, 5, 6, 4], [7, 10, 8, 2]);
    assert {([9, 2, 6, 3, 1], [5, 8, 4, 7, 10]), ([2, 6, 3, 1, 9, 5], [8, 4, 7, 10])} + {([6, 3, 1, 9, 5], [4, 7, 10, 8, 2])} == {([9, 2, 6, 3, 1], [5, 8, 4, 7, 10]), ([2, 6, 3, 1, 9, 5], [8, 4, 7, 10]), ([6, 3, 1, 9, 5], [4, 7, 10, 8, 2])};
  }

  lemma SampleRecursiveRound4()
    ensures RecGame([3, 1, 9, 5, 6, 4], [7, 10, 8, 2], {([9, 2, 6, 3, 1], [5, 8, 4, 7, 10]), ([2, 6, 3, 1, 9, 5], [8, 4, 7, 10]), ([6, 3, 1, 9, 5], [4, 7, 10, 8, 2])}, 17)
         == RecGame([1, 9, 5, 6, 4], [10, 8, 2, 7, 3], {([9, 2, 6, 3, 1], [5, 8, 4, 7, 10]), ([2, 6, 3, 1, 9, 5], [8, 4, 7, 10]), ([6, 3, 1, 9, 5], [4, 7, 10, 8, 2]), ([3, 1, 9, 5, 6, 4], [7, 10, 8, 2])}, 16)
  {
    RecRoundPlain([3, 1, 9, 5, 6, 4], [7, 10, 8, 2], 16);
    assert [3, 1, 9, 5, 6, 4][1..] == [1, 9, 5, 6, 4];
    assert [7, 10, 8, 2][1..] == [10, 8, 2];
    assert [1, 9, 5, 6, 4] + [3, 7] == [1, 9, 5, 6, 4, 3, 7];
    assert [10, 8, 2] + [7, 3] == [10, 8, 2, 7, 3];
    assert RecRound([3, 1, 9, 5, 6, 4], [7, 10, 8, 2], 16) == Some(Ok(([1, 9, 5, 6, 4], [10, 8, 2, 7, 3])));
    assert |[3, 1, 9, 5, 6, 4]| != |[9, 2, 6, 3, 1]|;
    assert [3, 1, 9, 5, 6, 4][0] != [2, 6, 3, 1, 9, 5][0];
    assert |[3, 1, 9, 5, 6, 4]| != |[6, 3, 1, 9, 5]|;
    RecGameStep([3, 1, 9, 5, 6, 4], [7, 10, 8, 2], {([9, 2, 6, 3, 1], [5, 8, 4, 7, 10]), ([2, 6, 3, 1, 9, 5], [8, 4, 7, 10]), ([6, 3, 1, 9, 5], [4, 7, 10, 8, 2])}, 17, [1, 9, 5, 6, 4], [10, 8, 2, 7, 3]);
    assert {([9, 2, 6, 3, 1], [5, 8, 4, 7, 10]), ([2, 6, 3, 1, 9, 5], [8, 4, 7, 10]), ([6, 3, 1, 9, 5], [4, 7, 10, 8, 2])} + {([3, 1, 9, 5, 6, 4], [7, 10, 8, 2])} == {([9, 2, 6, 3, 1], [5, 8, 4, 7, 10]), ([2, 6, 3, 1, 9, 5], [8, 4, 7, 10]), ([6, 3, 1, 9, 5], [4, 7, 10, 8, 2]), ([3, 1, 9, 5, 6, 4], [7, 10, 8, 2])};
  }

  lemma SampleRecursiveRound5()
    ensures RecGame([1, 9, 5, 6, 4], [10, 8, 2, 7, 3], {([9, 2, 6, 3, 1], [5, 8, 4, 7, 10]), ([2, 6, 3, 1, 9, 5], [8, 4, 7, 10]), ([6, 3, 1, 9, 5], [4, 7, 10, 8, 2]), ([3, 1, 9, 5, 6, 4], [7, 10, 8, 2])}, 16)
         == RecGame([9, 5, 6, 4], [8, 2, 7, 3, 10, 1], {([9, 2, 6, 3, 1], [5, 8, 4, 7, 10]), ([2, 6, 3, 1, 9, 5], [8, 4, 7, 10]), ([6, 3, 1, 9, 5], [4, 7, 10, 8, 2]), ([3, 1, 9, 5, 6, 4], [7, 10, 8, 2]), ([1, 9, 5, 6, 4], [10, 8, 2, 7, 3])}, 15)
  {
    RecRoundPlain([1, 9, 5, 6, 4], [10, 8, 2, 7, 3], 15);
    assert [1, 9, 5, 6, 4][1..] == [9, 5, 6, 4];
    assert [10, 8, 2, 7, 3][1..] == [8, 2, 7, 3];
    assert [9, 5, 6, 4] + [1, 10] == [9, 5, 6, 4, 1, 10];
    assert [8, 2, 7, 3] + [10, 1] == [8, 2, 7, 3, 10, 1];
    assert RecRound([1, 9, 5, 6, 4], [10, 8, 2, 7, 3], 15) == Some(Ok(([9, 5, 6, 4], [8, 2, 7, 3, 10, 1])));
    assert [1, 9, 5, 6, 4][0] != [9, 2, 6, 3, 1][0];
    assert |[1, 9, 5, 6, 4]| != |[2, 6, 3, 1, 9, 5]|;
    assert [1, 9, 5, 6, 4][0] != [6, 3, 1, 9, 5][0];
    assert |[1, 9, 5, 6, 4]| != |[3, 1, 9, 5, 6, 4]|;
    RecGameStep([1, 9, 5, 6, 4], [10, 8, 2, 7, 3], {([9, 2, 6, 3, 1], [5, 8, 4, 7, 10]), ([2, 6, 3, 1, 9, 5], [8, 4, 7, 10]), ([6, 3, 1, 9, 5], [4, 7, 10, 8, 2]), ([3, 1, 9, 5, 6, 4], [7, 10, 8, 2])}, 16, [9, 5, 6, 4], [8, 2, 7, 3, 10, 1]);
    assert {([9, 2, 6, 3, 1], [5, 8, 4, 7, 10]), ([2, 6, 3, 1, 9, 5], [8, 4, 7, 10]), ([6, 3, 1, 9, 5], [4, 7, 10, 8, 2]), ([3, 1, 9, 5, 6, 4], [7, 10, 8, 2])} + {([1, 9, 5, 6, 4], [10, 8, 2, 7, 3])} == {([9, 2, 6, 3, 1], [5, 8, 4, 7, 10]), ([2, 6, 3, 1, 9, 5], [8, 4, 7, 10]), ([6, 3, 1, 9, 5], [4, 7, 10, 8, 2]), ([3, 1, 9, 5, 6, 4], [7, 10, 8, 2]), ([1, 9, 5, 6, 4], [10, 8, 2, 7, 3])};
  }

  lemma SampleRecursiveRound6()
    ensures RecGame([9, 5, 6, 4], [8, 2, 7, 3, 10, 1], {([9, 2, 6, 3, 1], [5, 8, 4, 7, 10]), ([2, 6, 3, 1, 9, 5], [8, 4, 7, 10]), ([6, 3, 1, 9, 5], [4, 7, 10, 8, 2]), ([3, 1, 9, 5, 6, 4], [7, 10, 8, 2]), ([1, 9, 5, 6, 4], [10, 8, 2, 7, 3])}, 15)
         == RecGame([5, 6, 4, 9, 8], [2, 7, 3, 10, 1], {([9, 2, 6, 3, 1], [5, 8, 4, 7, 10]), ([2, 6, 3, 1, 9, 5], [8, 4, 7, 10]), ([6, 3, 1, 9, 5], [4, 7, 10, 8, 2]), ([3, 1, 9, 5, 6, 4], [7, 10, 8, 2]), ([1, 9, 5, 6, 4], [10, 8, 2, 7, 3]), ([9, 5, 6, 4], [8, 2, 7, 3, 10, 1])}, 14)
  {
    RecRoundPlain([9, 5, 6, 4], [8, 2, 7, 3, 10, 1], 14);
    assert [9, 5, 6, 4][1..] == [5, 6, 4];
    assert [8, 2, 7, 3, 10, 1][1..] == [2, 7, 3, 10, 1];
    assert [5, 6, 4] + [9, 8] == [5, 6, 4, 9, 8];
    assert [2, 7, 3, 10, 1] + [8, 9] == [2, 7, 3, 10, 1, 8, 9];
    assert RecRound([9, 5, 6, 4], [8, 2, 7, 3, 10, 1], 14) == Some(Ok(([5, 6, 4, 9, 8], [2, 7, 3, 10, 1])));
    assert |[9, 5, 6, 4]| != |[9, 2, 6, 3, 1]|;
    assert |[9, 5, 6, 4]| != |[2, 6, 3, 1, 9, 5]|;
    assert |[9, 5, 6, 4]| != |[6, 3, 1, 9, 5]|;
    assert |[9, 5, 6, 4]| != |[3, 1, 9, 5, 6, 4]|;
    assert |[9, 5, 6, 4]| != |[1, 9, 5, 6, 4]|;
    RecGameStep([9, 5, 6, 4], [8, 2, 7, 3, 10, 1], {([9, 2, 6, 3, 1], [5, 8, 4, 7, 10]), ([2, 6, 3, 1, 9, 5], [8, 4, 7, 10]), ([6, 3, 1, 9, 5], [4, 7, 10, 8, 2]), ([3, 1, 9, 5, 6, 4], [7, 10, 8, 2]), ([1, 9, 5, 6, 4], [10, 8, 2, 7, 3])}, 15, [5, 6, 4, 9, 8], [2, 7, 3, 10, 1]);
    assert {([9, 2, 6, 3, 1], [5, 8, 4, 7, 10]), ([2, 6, 3, 1, 9, 5], [8, 4, 7, 10]), ([6, 3, 1, 9, 5], [4, 7, 10, 8, 2]), ([3, 1, 9, 5, 6, 4], [7, 10, 8, 2]), ([1, 9, 5, 6, 4], [10, 8, 2, 7, 3])} + {([9, 5, 6, 4], [8, 2, 7, 3, 10, 1])} == {([9, 2, 6, 3, 1], [5, 8, 4, 7, 10]), ([2, 6, 3, 1, 9, 5], [8, 4, 7, 10]), ([6, 3, 1, 9, 5], [4, 7, 10, 8, 2]), ([3, 1, 9, 5, 6, 4], [7, 10, 8, 2]), ([1, 9, 5, 6, 4], [10, 8, 2, 7, 3]), ([9, 5, 6, 4], [8, 2, 7, 3, 10, 1])};
  }

  lemma SampleRecursiveRound7()
    ensures RecGame([5, 6, 4, 9, 8], [2, 7, 3, 10, 1], {([9, 2, 6, 3, 1], [5, 8, 4, 7, 10]), ([2, 6, 3, 1, 9, 5], [8, 4, 7, 10]), ([6, 3, 1, 9, 5], [4, 7, 10, 8, 2]), ([3, 1, 9, 5, 6, 4], [7, 10, 8, 2]), ([1, 9, 5, 6, 4], [10, 8, 2, 7, 3]), ([9, 5, 6, 4], [8, 2, 7, 3, 10, 1])}, 14)
         == RecGame([6, 4, 9, 8, 5, 2], [7, 3, 10, 1], {([9, 2, 6, 3, 1], [5, 8, 4, 7, 10]), ([2, 6, 3, 1, 9, 5], [8, 4, 7, 10]), ([6, 3, 1, 9, 5], [4, 7, 10, 8, 2]), ([3, 1, 9, 5, 6, 4], [7, 10, 8, 2]), ([1, 9, 5, 6, 4], [10, 8, 2, 7, 3]), ([9, 5, 6, 4], [8, 2, 7, 3, 10, 1]), ([5, 6, 4, 9, 8], [2, 7, 3, 10, 1])}, 13)
  {
    RecRoundPlain([5, 6, 4, 9, 8], [2, 7, 3, 10, 1], 13);
    assert [5, 6, 4, 9, 8][1..] == [6, 4, 9, 8];
    assert [2, 7, 3, 10, 1][1..] == [7, 3, 10, 1];
    assert [6, 4, 9, 8] + [5, 2] == [6, 4, 9, 8, 5, 2];
    assert [7, 3, 10, 1] + [2, 5] == [7, 3, 10, 1, 2, 5];
    assert RecRound([5, 6, 4, 9, 8], [2, 7, 3, 10, 1], 13) == Some(Ok(([6, 4, 9, 8, 5, 2], [7, 3, 10, 1])));
    assert [5, 6, 4, 9, 8][0] != [9, 2, 6, 3, 1][0];
    assert |[5, 6, 4, 9, 8]| != |[2, 6, 3, 1, 9, 5]|;
    assert [5, 6, 4, 9, 8][0] != [6, 3, 1, 9, 5][0];
    assert |[5, 6, 4, 9, 8]| != |[3, 1, 9, 5, 6, 4]|;
    assert [5, 6, 4, 9, 8][0] != [1, 9, 5, 6, 4][0];
    assert |[5, 6, 4, 9, 8]| != |[9, 5, 6, 4]|;
    RecGameStep([5, 6, 4, 9, 8], [2, 7, 3, 10, 1], {([9, 2, 6, 3, 1], [5, 8, 4, 7, 10]), ([2, 6, 3, 1, 9, 5], [8, 4, 7, 10]), ([6, 3, 1, 9, 5], [4, 7, 10, 8, 2]), ([3, 1, 9, 5, 6, 4], [7, 10, 8, 2]), ([1, 9, 5, 6, 4], [10, 8, 2, 7, 3]), ([9, 5, 6, 4], [8, 2, 7, 3, 10, 1])}, 14, [6, 4, 9, 8, 5, 2], [7, 3, 10, 1]);
    assert {([9, 2, 6, 3, 1], [5, 8, 4, 7, 10]), ([2, 6, 3, 1, 9, 5], [8, 4, 7, 10]), ([6, 3, 1, 9, 5], [4, 7, 10, 8, 2]), ([3, 1, 9, 5, 6, 4], [7, 10, 8, 2]), ([1, 9, 5, 6, 4], [10, 8, 2, 7, 3]), ([9, 5, 6, 4], [8, 2, 7, 3, 10, 1])} + {([5, 6, 4, 9, 8], [2, 7, 3, 10, 1])} == {([9, 2, 6, 3, 1], [5, 8, 4, 7, 10]), ([2, 6, 3, 1, 9, 5], [8, 4, 7, 10]), ([6, 3, 1, 9, 5], [4, 7, 10, 8, 2]), ([3, 1, 9, 5, 6, 4], [7, 10, 8, 2]), ([1, 9, 5, 6, 4], [10, 8, 2, 7, 3]), ([9, 5, 6, 4], [8, 2, 7, 3, 10, 1]), ([5, 6, 4, 9, 8], [2, 7, 3, 10, 1])};
  }

  lemma SampleRecursiveRound8()
    ensures RecGame([6, 4, 9, 8, 5, 2], [7, 3, 10, 1], {([9, 2, 6, 3, 1], [5, 8, 4, 7, 10]), ([2, 6, 3, 1, 9, 5], [8, 4, 7, 10]), ([6, 3, 1, 9, 5], [4, 7, 10, 8, 2]), ([3, 1, 9, 5, 6, 4], [7, 10, 8, 2]), ([1, 9, 5, 6, 4], [10, 8, 2, 7, 3]), ([9, 5, 6, 4], [8, 2, 7, 3, 10, 1]), ([5, 6, 4, 9, 8], [2, 7, 3, 10, 1])}, 13)
         == RecGame([4, 9, 8, 5, 2], [3, 10, 1, 7, 6], {([9, 2, 6, 3, 1], [5, 8, 4, 7, 10]), ([2, 6, 3, 1, 9, 5], [8, 4, 7, 10]), ([6, 3, 1, 9, 5], [4, 7, 10, 8, 2]), ([3, 1, 9, 5, 6, 4], [7, 10, 8, 2]), ([1, 9, 5, 6, 4], [10, 8, 2, 7, 3]), ([9, 5, 6, 4], [8, 2, 7, 3, 10, 1]), ([5, 6, 4, 9, 8], [2, 7, 3, 10, 1]), ([6, 4, 9, 8, 5, 2], [7, 3, 10, 1])}, 12)
  {
    RecRoundPlain([6, 4, 9, 8, 5, 2], [7, 3, 10, 1], 12);
    assert [6, 4, 9, 8, 5, 2][1..] == [4, 9, 8, 5, 2];
    assert [7, 3, 10, 1][1..] == [3, 10, 1];
    assert [4, 9, 8, 5, 2] + [6, 7] == [4, 9, 8, 5, 2, 6, 7];
    assert [3, 10, 1] + [7, 6] == [3, 10, 1, 7, 6];
    assert RecRound([6, 4, 9, 8, 5, 2], [7, 3, 10, 1], 12) == Some(Ok(([4, 9, 8, 5, 2], [3, 10, 1, 7, 6])));
    assert |[6, 4, 9, 8, 5, 2]| != |[9, 2, 6, 3, 1]|;
    assert [6, 4, 9, 8, 5, 2][0] != [2, 6, 3, 1, 9, 5][0];
    assert |[6, 4, 9, 8, 5, 2]| != |[6, 3, 1, 9, 5]|;
    assert [6, 4, 9, 8, 5, 2][0] != [3, 1, 9, 5, 6, 4][0];
    assert |[6, 4, 9, 8, 5, 2]| != |[1, 9, 5, 6, 4]|;
    assert |[6, 4, 9, 8, 5, 2]| != |[9, 5, 6, 4]|;
    assert |[6, 4, 9, 8, 5, 2]| != |[5, 6, 4, 9, 8]|;
    RecGameStep([6, 4, 9, 8, 5, 2], [7, 3, 10, 1], {([9, 2, 6, 3, 1], [5, 8, 4, 7, 10]), ([2, 6, 3, 1, 9, 5], [8, 4, 7, 10]), ([6, 3, 1, 9, 5], [4, 7, 10, 8, 2]), ([3, 1, 9, 5, 6, 4], [7, 10, 8, 2]), ([1, 9, 5, 6, 4], [10, 8, 2, 7, 3]), ([9, 5, 6, 4], [8, 2, 7, 3, 10, 1]), ([5, 6, 4, 9, 8], [2, 7, 3, 10, 1])}, 13, [4, 9, 8, 5, 2], [3, 10, 1, 7, 6]);
    assert {([9, 2, 6, 3, 1], [5, 8, 4, 7, 10]), ([2, 6, 3, 1, 9, 5], [8, 4, 7, 10]), ([6, 3, 1, 9, 5], [4, 7, 10, 8, 2]), ([3, 1, 9, 5, 6, 4], [7, 10, 8, 2]), ([1, 9, 5, 6, 4], [10, 8, 2, 7, 3]), ([9, 5, 6, 4], [8, 2, 7, 3, 10, 1]), ([5, 6, 4, 9, 8], [2, 7, 3, 10, 1])} + {([6, 4, 9, 8, 5, 2], [7, 3, 10, 1])} == {([9, 2, 6, 3, 1], [5, 8, 4, 7, 10]), ([2, 6, 3, 1, 9, 5], [8, 4, 7, 10]), ([6, 3, 1, 9, 5], [4, 7, 10, 8, 2]), ([3, 1, 9, 5, 6, 4], [7, 10, 8, 2]), ([1, 9, 5, 6, 4], [10, 8, 2, 7, 3]), ([9, 5, 6, 4], [8, 2, 7, 3, 10, 1]), ([5, 6, 4, 9, 8], [2, 7, 3, 10, 1]), ([6, 4, 9, 8, 5, 2], [7, 3, 10, 1])};
  }

  lemma SampleRecursiveRound9Draw()
    ensures RecRound([4, 9, 8, 5, 2], [3, 10, 1, 7, 6], 11) == Some(Ok(([9, 8, 5, 2], [10, 1, 7, 6, 3, 4])))
  {
    assert [4, 9, 8, 5, 2][1..][..4] == [9, 8, 5, 2];
    assert [3, 10, 1, 7, 6][1..][..3] == [10, 1, 7];
    assert [4, 9, 8, 5, 2][1..] == [9, 8, 5, 2];
    assert [3, 10, 1, 7, 6][1..] == [10, 1, 7, 6];
    assert [9, 8, 5, 2] + [4, 3] == [9, 8, 5, 2, 4, 3];
    assert [10, 1, 7, 6] + [3, 4] == [10, 1, 7, 6, 3, 4];
    SubGame1();
    RecRoundSubGame([4, 9, 8, 5, 2], [3, 10, 1, 7, 6], 11);
  }

  lemma SampleRecursiveRound9()
    ensures RecGame([4, 9, 8, 5, 2], [3, 10, 1, 7, 6], {([9, 2, 6, 3, 1], [5, 8, 4, 7, 10]), ([2, 6, 3, 1, 9, 5], [8, 4, 7, 10]), ([6, 3, 1, 9, 5], [4, 7, 10, 8, 2]), ([3, 1, 9, 5, 6, 4], [7, 10, 8, 2]), ([1, 9, 5, 6, 4], [10, 8, 2, 7, 3]), ([9, 5, 6, 4], [8, 2, 7, 3, 10, 1]), ([5, 6, 4, 9, 8], [2, 7, 3, 10, 1]), ([6, 4, 9, 8, 5, 2], [7, 3, 10, 1])}, 12)
         == RecGame([9, 8, 5, 2], [10, 1, 7, 6, 3, 4], {([9, 2, 6, 3, 1], [5, 8, 4, 7, 10]), ([2, 6, 3, 1, 9, 5], [8, 4, 7, 10]), ([6, 3, 1, 9, 5], [4, 7, 10, 8, 2]), ([3, 1, 9, 5, 6, 4], [7, 10, 8, 2]), ([1, 9, 5, 6, 4], [10, 8, 2, 7, 3]), ([9, 5, 6, 4], [8, 2, 7, 3, 10, 1]), ([5, 6, 4, 9, 8], [2, 7, 3, 10, 1]), ([6, 4, 9, 8, 5, 2], [7, 3, 10, 1]), ([4, 9, 8, 5, 2], [3, 10, 1, 7, 6])}, 11)
  {
    SampleRecursiveRound9Draw();
    assert [4, 9, 8, 5, 2][0] != [9, 2, 6, 3, 1][0];
    assert |[4, 9, 8, 5, 2]| != |[2, 6, 3, 1, 9, 5]|;
    assert [4, 9, 8, 5, 2][0] != [6, 3, 1, 9, 5][0];
    assert |[4, 9, 8, 5, 2]| != |[3, 1, 9, 5, 6, 4]|;
    assert [4, 9, 8, 5, 2][0] != [1, 9, 5, 6, 4][0];
    assert |[4, 9, 8, 5, 2]| != |[9, 5, 6, 4]|;
    assert [4, 9, 8, 5, 2][0] != [5, 6, 4, 9, 8][0];
    assert |[4, 9, 8, 5, 2]| != |[6, 4, 9, 8, 5, 2]|;
    RecGameStep([4, 9, 8, 5, 2], [3, 10, 1, 7, 6], {([9, 2, 6, 3, 1], [5, 8, 4, 7, 10]), ([2, 6, 3, 1, 9, 5], [8, 4, 7, 10]), ([6, 3, 1, 9, 5], [4, 7, 10, 8, 2]), ([3, 1, 9, 5, 6, 4], [7, 10, 8, 2]), ([1, 9, 5, 6, 4], [10, 8, 2, 7, 3]), ([9, 5, 6, 4], [8, 2, 7, 3, 10, 1]), ([5, 6, 4, 9, 8], [2, 7, 3, 10, 1]), ([6, 4, 9, 8, 5, 2], [7, 3, 10, 1])}, 12, [9, 8, 5, 2], [10, 1, 7, 6, 3, 4]);
    assert {([9, 2, 6, 3, 1], [5, 8, 4, 7, 10]), ([2, 6, 3, 1, 9, 5], [8, 4, 7, 10]), ([6, 3, 1, 9, 5], [4, 7, 10, 8, 2]), ([3, 1, 9, 5, 6, 4], [7, 10, 8, 2]), ([1, 9, 5, 6, 4], [10, 8, 2, 7, 3]), ([9, 5, 6, 4], [8, 2, 7, 3, 10, 1]), ([5, 6, 4, 9, 8], [2, 7, 3, 10, 1]), ([6, 4, 9, 8, 5, 2], [7, 3, 10, 1])} + {([4, 9, 8, 5, 2], [3, 10, 1, 7, 6])} == {([9, 2, 6, 3, 1], [5, 8, 4, 7, 10]), ([2, 6, 3, 1, 9, 5], [8, 4, 7, 10]), ([6, 3, 1, 9, 5], [4, 7, 10, 8, 2]), ([3, 1, 9, 5, 6, 4], [7, 10, 8, 2]), ([1, 9, 5, 6, 4], [10, 8, 2, 7, 3]), ([9, 5, 6, 4], [8, 2, 7, 3, 10, 1]), ([5, 6, 4, 9, 8], [2, 7, 3, 10, 1]), ([6, 4, 9, 8, 5, 2], [7, 3, 10, 1]), ([4, 9, 8, 5, 2], [3, 10, 1, 7, 6])};
  }

  lemma SampleRecursiveRound10()
    ensures RecGame([9, 8, 5, 2], [10, 1, 7, 6, 3, 4], {([9, 2, 6, 3, 1], [5, 8, 4, 7, 10]), ([2, 6, 3, 1, 9, 5], [8, 4, 7, 10]), ([6, 3, 1, 9, 5], [4, 7, 10, 8, 2]), ([3, 1, 9, 5, 6, 4], [7, 10, 8, 2]), ([1, 9, 5, 6, 4], [10, 8, 2, 7, 3]), ([9, 5, 6, 4], [8, 2, 7, 3, 10, 1]), ([5, 6, 4, 9, 8], [2, 7, 3, 10, 1]), ([6, 4, 9, 8, 5, 2], [7, 3, 10, 1]), ([4, 9, 8, 5, 2], [3, 10, 1, 7, 6])}, 11)
         == RecGame([8, 5, 2], [1, 7, 6, 3, 4, 10, 9], {([9, 2, 6, 3, 1], [5, 8, 4, 7, 10]), ([2, 6, 3, 1, 9, 5], [8, 4, 7, 10]), ([6, 3, 1, 9, 5], [4, 7, 10, 8, 2]), ([3, 1, 9, 5, 6, 4], [7, 10, 8, 2]), ([1, 9, 5, 6, 4], [10, 8, 2, 7, 3]), ([9, 5, 6, 4], [8, 2, 7, 3, 10, 1]), ([5, 6, 4, 9, 8], [2, 7, 3, 10, 1]), ([6, 4, 9, 8, 5, 2], [7, 3, 10, 1]), ([4, 9, 8, 5, 2], [3, 10, 1, 7, 6]), ([9, 8, 5, 2], [10, 1, 7, 6, 3, 4])}, 10)
  {
    RecRoundPlain([9, 8, 5, 2], [10, 1, 7, 6, 3, 4], 10);
    assert [9, 8, 5, 2][1..] == [8, 5, 2];
    assert [10, 1, 7, 6, 3, 4][1..] == [1, 7, 6, 3, 4];
    assert [8, 5, 2] + [9, 10] == [8, 5, 2, 9, 10];
    assert [1, 7, 6, 3, 4] + [10, 9] == [1, 7, 6, 3, 4, 10, 9];
    assert RecRound([9, 8, 5, 2], [10, 1, 7, 6, 3, 4], 10) == Some(Ok(([8, 5, 2], [1, 7, 6, 3, 4, 10, 9])));
    assert |[9, 8, 5, 2]| != |[9, 2, 6, 3, 1]|;
    assert |[9, 8, 5, 2]| != |[2, 6, 3, 1, 9, 5]|;
    assert |[9, 8, 5, 2]| != |[6, 3, 1, 9, 5]|;
    assert |[9, 8, 5, 2]| != |[3, 1, 9, 5, 6, 4]|;
    assert |[9, 8, 5, 2]| != |[1, 9, 5, 6, 4]|;
    assert [9, 8, 5, 2][1] != [9, 5, 6, 4][1];
    assert |[9, 8, 5, 2]| != |[5, 6, 4, 9, 8]|;
    assert |[9, 8, 5, 2]| != |[6, 4, 9, 8, 5, 2]|;
    assert |[9, 8, 5, 2]| != |[4, 9, 8, 5, 2]|;
    RecGameStep([9, 8, 5, 2], [10, 1, 7, 6, 3, 4], {([9, 2, 6, 3, 1], [5, 8, 4, 7, 10]), ([2, 6, 3, 1, 9, 5], [8, 4, 7, 10]), ([6, 3, 1, 9, 5], [4, 7, 10, 8, 2]), ([3, 1, 9, 5, 6, 4], [7, 10, 8, 2]), ([1, 9, 5, 6, 4], [10, 8, 2, 7, 3]), ([9, 5, 6, 4], [8, 2, 7, 3, 10, 1]), ([5, 6, 4, 9, 8], [2, 7, 3, 10, 1]), ([6, 4, 9, 8, 5, 2], [7, 3, 10, 1]), ([4, 9, 8, 5, 2], [3, 10, 1, 7, 6])}, 11, [8, 5, 2], [1, 7, 6, 3, 4, 10, 9]);
    assert {([9, 2, 6, 3, 1], [5, 8, 4, 7, 10]), ([2, 6, 3, 1, 9, 5], [8, 4, 7, 10]), ([6, 3, 1, 9, 5], [4, 7, 10, 8, 2]), ([3, 1, 9, 5, 6, 4], [7, 10, 8, 2]), ([1, 9, 5, 6, 4], [10, 8, 2, 7, 3]), ([9, 5, 6, 4], [8, 2, 7, 3, 10, 1]), ([5, 6, 4, 9, 8], [2, 7, 3, 10, 1]), ([6, 4, 9, 8, 5, 2], [7, 3, 10, 1]), ([4, 9, 8, 5, 2], [3, 10, 1, 7, 6])} + {([9, 8, 5, 2], [10, 1, 7, 6, 3, 4])} == {([9, 2, 6, 3, 1], [5, 8, 4, 7, 10]), ([2, 6, 3, 1, 9, 5], [8, 4, 7, 10]), ([6, 3, 1, 9, 5], [4, 7, 10, 8, 2]), ([3, 1, 9, 5, 6, 4], [7, 10, 8, 2]), ([1, 9, 5, 6, 4], [10, 8, 2, 7, 3]), ([9, 5, 6, 4], [8, 2, 7, 3, 10, 1]), ([5, 6, 4, 9, 8], [2, 7, 3, 10, 1]), ([6, 4, 9, 8, 5, 2], [7, 3, 10, 1]), ([4, 9, 8, 5, 2], [3, 10, 1, 7, 6]), ([9, 8, 5, 2], [10, 1, 7, 6, 3, 4])};
  }

  lemma SampleRecursiveRound11()
    ensures RecGame([8, 5, 2], [1, 7, 6, 3, 4, 10, 9], {([9, 2, 6, 3, 1], [5, 8, 4, 7, 10]), ([2, 6, 3, 1, 9, 5], [8, 4, 7, 10]), ([6, 3, 1, 9, 5], [4, 7, 10, 8, 2]), ([3, 1, 9, 5, 6, 4], [7, 10, 8, 2]), ([1, 9, 5, 6, 4], [10, 8, 2, 7, 3]), ([9, 5, 6, 4], [8, 2, 7, 3, 10, 1]), ([5, 6, 4, 9, 8], [2, 7, 3, 10, 1]), ([6, 4, 9, 8, 5, 2], [7, 3, 10, 1]), ([4, 9, 8, 5, 2], [3, 10, 1, 7, 6]), ([9, 8, 5, 2], [10, 1, 7, 6, 3, 4])}, 10)
         == RecGame([5, 2, 8, 1], [7, 6, 3, 4, 10, 9], {([9, 2, 6, 3, 1], [5, 8, 4, 7, 10]), ([2, 6, 3, 1, 9, 5], [8, 4, 7, 10]), ([6, 3, 1, 9, 5], [4, 7, 10, 8, 2]), ([3, 1, 9, 5, 6, 4], [7, 10, 8, 2]), ([1, 9, 5, 6, 4], [10, 8, 2, 7, 3]), ([9, 5, 6, 4], [8, 2, 7, 3, 10, 1]), ([5, 6, 4, 9, 8], [2, 7, 3, 10, 1]), ([6, 4, 9, 8, 5, 2], [7, 3, 10, 1]), ([4, 9, 8, 5, 2], [3, 10, 1, 7, 6]), ([9, 8, 5, 2], [10, 1, 7, 6, 3, 4]), ([8, 5, 2], [1, 7, 6, 3, 4, 10, 9])}, 9)
  {
    RecRoundPlain([8, 5, 2], [1, 7, 6, 3, 4, 10, 9], 9);
    assert [8, 5, 2][1..] == [5, 2];
    assert [1, 7, 6, 3, 4, 10, 9][1..] == [7, 6, 3, 4, 10, 9];
    assert [5, 2] + [8, 1] == [5, 2, 8, 1];
    assert [7, 6, 3, 4, 10, 9] + [1, 8] == [7, 6, 3, 4, 10, 9, 1, 8];
    assert RecRound([8, 5, 2], [1, 7, 6, 3, 4, 10, 9], 9) == Some(Ok(([5, 2, 8, 1], [7, 6, 3, 4, 10, 9])));
    assert |[8, 5, 2]| != |[9, 2, 6, 3, 1]|;
    assert |[8, 5, 2]| != |[2, 6, 3, 1, 9, 5]|;
    assert |[8, 5, 2]| != |[6, 3, 1, 9, 5]|;
    assert |[8, 5, 2]| != |[3, 1, 9, 5, 6, 4]|;
    assert |[8, 5, 2]| != |[1, 9, 5, 6, 4]|;
    assert |[8, 5, 2]| != |[9, 5, 6, 4]|;
    assert |[8, 5, 2]| != |[5, 6, 4, 9, 8]|;
    assert |[8, 5, 2]| != |[6, 4, 9, 8, 5, 2]|;
    assert |[8, 5, 2]| != |[4, 9, 8, 5, 2]|;
    assert |[8, 5, 2]| != |[9, 8, 5, 2]|;
    RecGameStep([8, 5, 2], [1, 7, 6, 3, 4, 10, 9], {([9, 2, 6, 3, 1], [5, 8, 4, 7, 10]), ([2, 6, 3, 1, 9, 5], [8, 4, 7, 10]), ([6, 3, 1, 9, 5], [4, 7, 10, 8, 2]), ([3, 1, 9, 5, 6, 4], [7, 10, 8, 2]), ([1, 9, 5, 6, 4], [10, 8, 2, 7, 3]), ([9, 5, 6, 4], [8, 2, 7, 3, 10, 1]), ([5, 6, 4, 9, 8], [2, 7, 3, 10, 1]), ([6, 4, 9, 8, 5, 2], [7, 3, 10, 1]), ([4, 9, 8, 5, 2], [3, 10, 1, 7, 6]), ([9, 8, 5, 2], [10, 1, 7, 6, 3, 4])}, 10, [5, 2, 8, 1], [7, 6, 3, 4, 10, 9]);
    assert {([9, 2, 6, 3, 1], [5, 8, 4, 7, 10]), ([2, 6, 3, 1, 9, 5], [8, 4, 7, 10]), ([6, 3, 1, 9, 5], [4, 7, 10, 8, 2]), ([3, 1, 9, 5, 6, 4], [7, 10, 8, 2]), ([1, 9, 5, 6, 4], [10, 8, 2, 7, 3]), ([9, 5, 6, 4], [8, 2, 7, 3, 10, 1]), ([5, 6, 4, 9, 8], [2, 7, 3, 10, 1]), ([6, 4, 9, 8, 5, 2], [7, 3, 10, 1]), ([4, 9, 8, 5, 2], [3, 10, 1, 7, 6]), ([9, 8, 5, 2], [10, 1, 7, 6, 3, 4])} + {([8, 5, 2], [1, 7, 6, 3, 4, 10, 9])} == {([9, 2, 6, 3, 1], [5, 8, 4, 7, 10]), ([2, 6, 3, 1, 9, 5], [8, 4, 7, 10]), ([6, 3, 1, 9, 5], [4, 7, 10, 8, 2]), ([3, 1, 9, 5, 6, 4], [7, 10, 8, 2]), ([1, 9, 5, 6, 4], [10, 8, 2, 7, 3]), ([9, 5, 6, 4], [8, 2, 7, 3, 10, 1]), ([5, 6, 4, 9, 8], [2, 7, 3, 10, 1]), ([6, 4, 9, 8, 5, 2], [7, 3, 10, 1]), ([4, 9, 8, 5, 2], [3, 10, 1, 7, 6]), ([9, 8, 5, 2], [10, 1, 7, 6, 3, 4]), ([8, 5, 2], [1, 7, 6, 3, 4, 10, 9])};
  }

  lemma SampleRecursiveRound12()
    ensures RecGame([5, 2, 8, 1], [7, 6, 3, 4, 10, 9], {([9, 2, 6, 3, 1], [5, 8, 4, 7, 10]), ([2, 6, 3, 1, 9, 5], [8, 4, 7, 10]), ([6, 3, 1, 9, 5], [4, 7, 10, 8, 2]), ([3, 1, 9, 5, 6, 4], [7, 10, 8, 2]), ([1, 9, 5, 6, 4], [10, 8, 2, 7, 3]), ([9, 5, 6, 4], [8, 2, 7, 3, 10, 1]), ([5, 6, 4, 9, 8], [2, 7, 3, 10, 1]), ([6, 4, 9, 8, 5, 2], [7, 3, 10, 1]), ([4, 9, 8, 5, 2], [3, 10, 1, 7, 6]), ([9, 8, 5, 2], [10, 1, 7, 6, 3, 4]), ([8, 5, 2], [1, 7, 6, 3, 4, 10, 9])}, 9)
         == RecGame([2, 8, 1], [6, 3, 4, 10, 9, 7, 5], {([9, 2, 6, 3, 1], [5, 8, 4, 7, 10]), ([2, 6, 3, 1, 9, 5], [8, 4, 7, 10]), ([6, 3, 1, 9, 5], [4, 7, 10, 8, 2]), ([3, 1, 9, 5, 6, 4], [7, 10, 8, 2]), ([1, 9, 5, 6, 4], [10, 8, 2, 7, 3]), ([9, 5, 6, 4], [8, 2, 7, 3, 10, 1]), ([5, 6, 4, 9, 8], [2, 7, 3, 10, 1]), ([6, 4, 9, 8, 5, 2], [7, 3, 10, 1]), ([4, 9, 8, 5, 2], [3, 10, 1, 7, 6]), ([9, 8, 5, 2], [10, 1, 7, 6, 3, 4]), ([8, 5, 2], [1, 7, 6, 3, 4, 10, 9]), ([5, 2, 8, 1], [7, 6, 3, 4, 10, 9])}, 8)
  {
    RecRoundPlain([5, 2, 8, 1], [7, 6, 3, 4, 10, 9], 8);
    assert [5, 2, 8, 1][1..] == [2, 8, 1];
    assert [7, 6, 3, 4, 10, 9][1..] == [6, 3, 4, 10, 9];
    assert [2, 8, 1] + [5, 7] == [2, 8, 1, 5, 7];
    assert [6, 3, 4, 10, 9] + [7, 5] == [6, 3, 4, 10, 9, 7, 5];
    assert RecRound([5, 2, 8, 1], [7, 6, 3, 4, 10, 9], 8) == Some(Ok(([2, 8, 1], [6, 3, 4, 10, 9, 7, 5])));
    assert |[5, 2, 8, 1]| != |[9, 2, 6, 3, 1]|;
    assert |[5, 2, 8, 1]| != |[2, 6, 3, 1, 9, 5]|;
    assert |[5, 2, 8, 1]| != |[6, 3, 1, 9, 5]|;
    assert |[5, 2, 8, 1]| != |[3, 1, 9, 5, 6, 4]|;
    assert |[5, 2, 8, 1]| != |[1, 9, 5, 6, 4]|;
    assert [5, 2, 8, 1][0] != [9, 5, 6, 4][0];
    assert |[5, 2, 8, 1]| != |[5, 6, 4, 9, 8]|;
    assert |[5, 2, 8, 1]| != |[6, 4, 9, 8, 5, 2]|;
    assert |[5, 2, 8, 1]| != |[4, 9, 8, 5, 2]|;
    assert [5, 2, 8, 1][0] != [9, 8, 5, 2][0];
    assert |[5, 2, 8, 1]| != |[8, 5, 2]|;
    RecGameStep([5, 2, 8, 1], [7, 6, 3, 4, 10, 9], {([9, 2, 6, 3, 1], [5, 8, 4, 7, 10]), ([2, 6, 3, 1, 9, 5], [8, 4, 7, 10]), ([6, 3, 1, 9, 5], [4, 7, 10, 8, 2]), ([3, 1, 9, 5, 6, 4], [7, 10, 8, 2]), ([1, 9, 5, 6, 4], [10, 8, 2, 7, 3]), ([9, 5, 6, 4], [8, 2, 7, 3, 10, 1]), ([5, 6, 4, 9, 8], [2, 7, 3, 10, 1]), ([6, 4, 9, 8, 5, 2], [7, 3, 10, 1]), ([4, 9, 8, 5, 2], [3, 10, 1, 7, 6]), ([9, 8, 5, 2], [10, 1, 7, 6, 3, 4]), ([8, 5, 2], [1, 7, 6, 3, 4, 10, 9])}, 9, [2, 8, 1], [6, 3, 4, 10, 9, 7, 5]);
    assert {([9, 2, 6, 3, 1], [5, 8, 4, 7, 10]), ([2, 6, 3, 1, 9, 5], [8, 4, 7, 10]), ([6, 3, 1, 9, 5], [4, 7, 10, 8, 2]), ([3, 1, 9, 5, 6, 4], [7, 10, 8, 2]), ([1, 9, 5, 6, 4], [10, 8, 2, 7, 3]), ([9, 5, 6, 4], [8, 2, 7, 3, 10, 1]), ([5, 6, 4, 9, 8], [2, 7, 3, 10, 1]), ([6, 4, 9, 8, 5, 2], [7, 3, 10, 1]), ([4, 9, 8, 5, 2], [3, 10, 1, 7, 6]), ([9, 8, 5, 2], [10, 1, 7, 6, 3, 4]), ([8, 5, 2], [1, 7, 6, 3, 4, 10, 9])} + {([5, 2, 8, 1], [7, 6, 3, 4, 10, 9])} == {([9, 2, 6, 3, 1], [5, 8, 4, 7, 10]), ([2, 6, 3, 1, 9, 5], [8, 4, 7, 10]), ([6, 3, 1, 9, 5], [4, 7, 10, 8, 2]), ([3, 1, 9, 5, 6, 4], [7, 10, 8, 2]), ([1, 9, 5, 6, 4], [10, 8, 2, 7, 3]), ([9, 5, 6, 4], [8, 2, 7, 3, 10, 1]), ([5, 6, 4, 9, 8], [2, 7, 3, 10, 1]), ([6, 4, 9, 8, 5, 2], [7, 3, 10, 1]), ([4, 9, 8, 5, 2], [3, 10, 1, 7, 6]), ([9, 8, 5, 2], [10, 1, 7, 6, 3, 4]), ([8, 5, 2], [1, 7, 6, 3, 4, 10, 9]), ([5, 2, 8, 1], [7, 6, 3, 4, 10, 9])};
  }

  lemma SampleRecursiveRound13Draw()
    ensures RecRound([2, 8, 1], [6, 3, 4, 10, 9, 7, 5], 7) == Some(Ok(([8, 1], [3, 4, 10, 9, 7, 5, 6, 2])))
  {
    assert [2, 8, 1][1..][..2] == [8, 1];
    assert [6, 3, 4, 10, 9, 7, 5][1..][..6] == [3, 4, 10, 9, 7, 5];
    assert [2, 8, 1][1..] == [8, 1];
    assert [6, 3, 4, 10, 9, 7, 5][1..] == [3, 4, 10, 9, 7, 5];
    assert [8, 1] + [2, 6] == [8, 1, 2, 6];
    assert [3, 4, 10, 9, 7, 5] + [6, 2] == [3, 4, 10, 9, 7, 5, 6, 2];
    SubGame2();
    RecRoundSubGame([2, 8, 1], [6, 3, 4, 10, 9, 7, 5], 7);
  }

  lemma SampleRecursiveRound13()
    ensures RecGame([2, 8, 1], [6, 3, 4, 10, 9, 7, 5], {([9, 2, 6, 3, 1], [5, 8, 4, 7, 10]), ([2, 6, 3, 1, 9, 5], [8, 4, 7, 10]), ([6, 3, 1, 9, 5], [4, 7, 10, 8, 2]), ([3, 1, 9, 5, 6, 4], [7, 10, 8, 2]), ([1, 9, 5, 6, 4], [10, 8, 2, 7, 3]), ([9, 5, 6, 4], [8, 2, 7, 3, 10, 1]), ([5, 6, 4, 9, 8], [2, 7, 3, 10, 1]), ([6, 4, 9, 8, 5, 2], [7, 3, 10, 1]), ([4, 9, 8, 5, 2], [3, 10, 1, 7, 6]), ([9, 8, 5, 2], [10, 1, 7, 6, 3, 4]), ([8, 5, 2], [1, 7, 6, 3, 4, 10, 9]), ([5, 2, 8, 1], [7, 6, 3, 4, 10, 9])}, 8)
         == RecGame([8, 1], [3, 4, 10, 9, 7, 5, 6, 2], {([9, 2, 6, 3, 1], [5, 8, 4, 7, 10]), ([2, 6, 3, 1, 9, 5], [8, 4, 7, 10]), ([6, 3, 1, 9, 5], [4, 7, 10, 8, 2]), ([3, 1, 9, 5, 6, 4], [7, 10, 8, 2]), ([1, 9, 5, 6, 4], [10, 8, 2, 7, 3]), ([9, 5, 6, 4], [8, 2, 7, 3, 10, 1]), ([5, 6, 4, 9, 8], [2, 7, 3, 10, 1]), ([6, 4, 9, 8, 5, 2], [7, 3, 10, 1]), ([4, 9, 8, 5, 2], [3, 10, 1, 7, 6]), ([9, 8, 5, 2], [10, 1, 7, 6, 3, 4]), ([8, 5, 2], [1, 7, 6, 3, 4, 10, 9]), ([5, 2, 8, 1], [7, 6, 3, 4, 10, 9]), ([2, 8, 1], [6, 3, 4, 10, 9, 7, 5])}, 7)
  {
    SampleRecursiveRound13Draw();
    assert |[2, 8, 1]| != |[9, 2, 6, 3, 1]|;
    assert |[2, 8, 1]| != |[2, 6, 3, 1, 9, 5]|;
    assert |[2, 8, 1]| != |[6, 3, 1, 9, 5]|;
    assert |[2, 8, 1]| != |[3, 1, 9, 5, 6, 4]|;
    assert |[2, 8, 1]| != |[1, 9, 5, 6, 4]|;
    assert |[2, 8, 1]| != |[9, 5, 6, 4]|;
    assert |[2, 8, 1]| != |[5, 6, 4, 9, 8]|;
    assert |[2, 8, 1]| != |[6, 4, 9, 8, 5, 2]|;
    assert |[2, 8, 1]| != |[4, 9, 8, 5, 2]|;
    assert |[2, 8, 1]| != |[9, 8, 5, 2]|;
    assert [2, 8, 1][0] != [8, 5, 2][0];
    assert |[2, 8, 1]| != |[5, 2, 8, 1]|;
    RecGameStep([2, 8, 1], [6, 3, 4, 10, 9, 7, 5], {([9, 2, 6, 3, 1], [5, 8, 4, 7, 10]), ([2, 6, 3, 1, 9, 5], [8, 4, 7, 10]), ([6, 3, 1, 9, 5], [4, 7, 10, 8, 2]), ([3, 1, 9, 5, 6, 4], [7, 10, 8, 2]), ([1, 9, 5, 6, 4], [10, 8, 2, 7, 3]), ([9, 5, 6, 4], [8, 2, 7, 3, 10, 1]), ([5, 6, 4, 9, 8], [2, 7, 3, 10, 1]), ([6, 4, 9, 8, 5, 2], [7, 3, 10, 1]), ([4, 9, 8, 5, 2], [3, 10, 1, 7, 6]), ([9, 8, 5, 2], [10, 1, 7, 6, 3, 4]), ([8, 5, 2], [1, 7, 6, 3, 4, 10, 9]), ([5, 2, 8, 1], [7, 6, 3, 4, 10, 9])}, 8, [8, 1], [3, 4, 10, 9, 7, 5, 6, 2]);
    assert {([9, 2, 6, 3, 1], [5, 8, 4, 7, 10]), ([2, 6, 3, 1, 9, 5], [8, 4, 7, 10]), ([6, 3, 1, 9, 5], [4, 7, 10, 8, 2]), ([3, 1, 9, 5, 6, 4], [7, 10, 8, 2]), ([1, 9, 5, 6, 4], [10, 8, 2, 7, 3]), ([9, 5, 6, 4], [8, 2, 7, 3, 10, 1]), ([5, 6, 4, 9, 8], [2, 7, 3, 10, 1]), ([6, 4, 9, 8, 5, 2], [7, 3, 10, 1]), ([4, 9, 8, 5, 2], [3, 10, 1, 7, 6]), ([9, 8, 5, 2], [10, 1, 7, 6, 3, 4]), ([8, 5, 2], [1, 7, 6, 3, 4, 10, 9]), ([5, 2, 8, 1], [7, 6, 3, 4, 10, 9])} + {([2, 8, 1], [6, 3, 4, 10, 9, 7, 5])} == {([9, 2, 6, 3, 1], [5, 8, 4, 7, 10]), ([2, 6, 3, 1, 9, 5], [8, 4, 7, 10]), ([6, 3, 1, 9, 5], [4, 7, 10, 8, 2]), ([3, 1, 9, 5, 6, 4], [7, 10, 8, 2]), ([1, 9, 5, 6, 4], [10, 8, 2, 7, 3]), ([9, 5, 6, 4], [8, 2, 7, 3, 10, 1]), ([5, 6, 4, 9, 8], [2, 7, 3, 10, 1]), ([6, 4, 9, 8, 5, 2], [7, 3, 10, 1]), ([4, 9, 8, 5, 2], [3, 10, 1, 7, 6]), ([9, 8, 5, 2], [10, 1, 7, 6, 3, 4]), ([8, 5, 2], [1, 7, 6, 3, 4, 10, 9]), ([5, 2, 8, 1], [7, 6, 3, 4, 10, 9]), ([2, 8, 1], [6, 3, 4, 10, 9, 7, 5])};
  }

  lemma SampleRecursiveRound14()
    ensures RecGame([8, 1], [3, 4, 10, 9, 7, 5, 6, 2], {([9, 2, 6, 3, 1], [5, 8, 4, 7, 10]), ([2, 6, 3, 1, 9, 5], [8, 4, 7, 10]), ([6, 3, 1, 9, 5], [4, 7, 10, 8, 2]), ([3, 1, 9, 5, 6, 4], [7, 10, 8, 2]), ([1, 9, 5, 6, 4], [10, 8, 2, 7, 3]), ([9, 5, 6, 4], [8, 2, 7, 3, 10, 1]), ([5, 6, 4, 9, 8], [2, 7, 3, 10, 1]), ([6, 4, 9, 8, 5, 2], [7, 3, 10, 1]), ([4, 9, 8, 5, 2], [3, 10, 1, 7, 6]), ([9, 8, 5, 2], [10, 1, 7, 6, 3, 4]), ([8, 5, 2], [1, 7, 6, 3, 4, 10, 9]), ([5, 2, 8, 1], [7, 6, 3, 4, 10, 9]), ([2, 8, 1], [6, 3, 4, 10, 9, 7, 5])}, 7)
         == RecGame([1, 8, 3], [4, 10, 9, 7, 5, 6, 2], {([9, 2, 6, 3, 1], [5, 8, 4, 7, 10]), ([2, 6, 3, 1, 9, 5], [8, 4, 7, 10]), ([6, 3, 1, 9, 5], [4, 7, 10, 8, 2]), ([3, 1, 9, 5, 6, 4], [7, 10, 8, 2]), ([1, 9, 5, 6, 4], [10, 8, 2, 7, 3]), ([9, 5, 6, 4], [8, 2, 7, 3, 10, 1]), ([5, 6, 4, 9, 8], [2, 7, 3, 10, 1]), ([6, 4, 9, 8, 5, 2], [7, 3, 10, 1]), ([4, 9, 8, 5, 2], [3, 10, 1, 7, 6]), ([9, 8, 5, 2], [10, 1, 7, 6, 3, 4]), ([8, 5, 2], [1, 7, 6, 3, 4, 10, 9]), ([5, 2, 8, 1], [7, 6, 3, 4, 10, 9]), ([2, 8, 1], [6, 3, 4, 10, 9, 7, 5]), ([8, 1], [3, 4, 10, 9, 7, 5, 6, 2])}, 6)
  {
    RecRoundPlain([8, 1], [3, 4, 10, 9, 7, 5, 6, 2], 6);
    assert [8, 1][1..] == [1];
    assert [3, 4, 10, 9, 7, 5, 6, 2][1..] == [4, 10, 9, 7, 5, 6, 2];
    assert [1] + [8, 3] == [1, 8, 3];
    assert [4, 10, 9, 7, 5, 6, 2] + [3, 8] == [4, 10, 9, 7, 5, 6, 2, 3, 8];
    assert RecRound([8, 1], [3, 4, 10, 9, 7, 5, 6, 2], 6) == Some(Ok(([1, 8, 3], [4, 10, 9, 7, 5, 6, 2])));
    assert |[8, 1]| != |[9, 2, 6, 3, 1]|;
    assert |[8, 1]| != |[2, 6, 3, 1, 9, 5]|;
    assert |[8, 1]| != |[6, 3, 1, 9, 5]|;
    assert |[8, 1]| != |[3, 1, 9, 5, 6, 4]|;
    assert |[8, 1]| != |[1, 9, 5, 6, 4]|;
    assert |[8, 1]| != |[9, 5, 6, 4]|;
    assert |[8, 1]| != |[5, 6, 4, 9, 8]|;
    assert |[8, 1]| != |[6, 4, 9, 8, 5, 2]|;
    assert |[8, 1]| != |[4, 9, 8, 5, 2]|;
    assert |[8, 1]| != |[9, 8, 5, 2]|;
    assert |[8, 1]| != |[8, 5, 2]|;
    assert |[8, 1]| != |[5, 2, 8, 1]|;
    assert |[8, 1]| != |[2, 8, 1]|;
    RecGameStep([8, 1], [3, 4, 10, 9, 7, 5, 6, 2], {([9, 2, 6, 3, 1], [5, 8, 4, 7, 10]), ([2, 6, 3, 1, 9, 5], [8, 4, 7, 10]), ([6, 3, 1, 9, 5], [4, 7, 10, 8, 2]), ([3, 1, 9, 5, 6, 4], [7, 10, 8, 2]), ([1, 9, 5, 6, 4], [10, 8, 2, 7, 3]), ([9, 5, 6, 4], [8, 2, 7, 3, 10, 1]), ([5, 6, 4, 9, 8], [2, 7, 3, 10, 1]), ([6, 4, 9, 8, 5, 2], [7, 3, 10, 1]), ([4, 9, 8, 5, 2], [3, 10, 1, 7, 6]), ([9, 8, 5, 2], [10, 1, 7, 6, 3, 4]), ([8, 5, 2], [1, 7, 6, 3, 4, 10, 9]), ([5, 2, 8, 1], [7, 6, 3, 4, 10, 9]), ([2, 8, 1], [6, 3, 4, 10, 9, 7, 5])}, 7, [1, 8, 3], [4, 10, 9, 7, 5, 6, 2]);
    assert {([9, 2, 6, 3, 1], [5, 8, 4, 7, 10]), ([2, 6, 3, 1, 9, 5], [8, 4, 7, 10]), ([6, 3, 1, 9, 5], [4, 7, 10, 8, 2]), ([3, 1, 9, 5, 6, 4], [7, 10, 8, 2]), ([1, 9, 5, 6, 4], [10, 8, 2, 7, 3]), ([9, 5, 6, 4], [8, 2, 7, 3, 10, 1]), ([5, 6, 4, 9, 8], [2, 7, 3, 10, 1]), ([6, 4, 9, 8, 5, 2], [7, 3, 10, 1]), ([4, 9, 8, 5, 2], [3, 10, 1, 7, 6]), ([9, 8, 5, 2], [10, 1, 7, 6, 3, 4]), ([8, 5, 2], [1, 7, 6, 3, 4, 10, 9]), ([5, 2, 8, 1], [7, 6, 3, 4, 10, 9]), ([2, 8, 1], [6, 3, 4, 10, 9, 7, 5])} + {([8, 1], [3, 4, 10, 9, 7, 5, 6, 2])} == {([9, 2, 6, 3, 1], [5, 8, 4, 7, 10]), ([2, 6, 3, 1, 9, 5], [8, 4, 7, 10]), ([6, 3, 1, 9, 5], [4, 7, 10, 8, 2]), ([3, 1, 9, 5, 6, 4], [7, 10, 8, 2]), ([1, 9, 5, 6, 4], [10, 8, 2, 7, 3]), ([9, 5, 6, 4], [8, 2, 7, 3, 10, 1]), ([5, 6, 4, 9, 8], [2, 7, 3, 10, 1]), ([6, 4, 9, 8, 5, 2], [7, 3, 10, 1]), ([4, 9, 8, 5, 2], [3, 10, 1, 7, 6]), ([9, 8, 5, 2], [10, 1, 7, 6, 3, 4]), ([8, 5, 2], [1, 7, 6, 3, 4, 10, 9]), ([5, 2, 8, 1], [7, 6, 3, 4, 10, 9]), ([2, 8, 1], [6, 3, 4, 10, 9, 7, 5]), ([8, 1], [3, 4, 10, 9, 7, 5, 6, 2])};
  }

  lemma SampleRecursiveRound15Draw()
    ensures RecRound([1, 8, 3], [4, 10, 9, 7, 5, 6, 2], 5) == Some(Ok(([8, 3], [10, 9, 7, 5, 6, 2, 4, 1])))
  {
    assert [1, 8, 3][1..][..1] == [8];
    assert [4, 10, 9, 7, 5, 6, 2][1..][..4] == [10, 9, 7, 5];
    assert [1, 8, 3][1..] == [8, 3];
    assert [4, 10, 9, 7, 5, 6, 2][1..] == [10, 9, 7, 5, 6, 2];
    assert [8, 3] + [1, 4] == [8, 3, 1, 4];
    assert [10, 9, 7, 5, 6, 2] + [4, 1] == [10, 9, 7, 5, 6, 2, 4, 1];
    SubGame3();
    RecRoundSubGame([1, 8, 3], [4, 10, 9, 7, 5, 6, 2], 5);
  }

  lemma SampleRecursiveRound15()
    ensures RecGame([1, 8, 3], [4, 10, 9, 7, 5, 6, 2], {([9, 2, 6, 3, 1], [5, 8, 4, 7, 10]), ([2, 6, 3, 1, 9, 5], [8, 4, 7, 10]), ([6, 3, 1, 9, 5], [4, 7, 10, 8, 2]), ([3, 1, 9, 5, 6, 4], [7, 10, 8, 2]), ([1, 9, 5, 6, 4], [10, 8, 2, 7, 3]), ([9, 5, 6, 4], [8, 2, 7, 3, 10, 1]), ([5, 6, 4, 9, 8], [2, 7, 3, 10, 1]), ([6, 4, 9, 8, 5, 2], [7, 3, 10, 1]), ([4, 9, 8, 5, 2], [3, 10, 1, 7, 6]), ([9, 8, 5, 2], [10, 1, 7, 6, 3, 4]), ([8, 5, 2], [1, 7, 6, 3, 4, 10, 9]), ([5, 2, 8, 1], [7, 6, 3, 4, 10, 9]), ([2, 8, 1], [6, 3, 4, 10, 9, 7, 5]), ([8, 1], [3, 4, 10, 9, 7, 5, 6, 2])}, 6)
         == RecGame([8, 3], [10, 9, 7, 5, 6, 2, 4, 1], {([9, 2, 6, 3, 1], [5, 8, 4, 7, 10]), ([2, 6, 3, 1, 9, 5], [8, 4, 7, 10]), ([6, 3, 1, 9, 5], [4, 7, 10, 8, 2]), ([3, 1, 9, 5, 6, 4], [7, 10, 8, 2]), ([1, 9, 5, 6, 4], [10, 8, 2, 7, 3]), ([9, 5, 6, 4], [8, 2, 7, 3, 10, 1]), ([5, 6, 4, 9, 8], [2, 7, 3, 10, 1]), ([6, 4, 9, 8, 5, 2], [7, 3, 10, 1]), ([4, 9, 8, 5, 2], [3, 10, 1, 7, 6]), ([9, 8, 5, 2], [10, 1, 7, 6, 3, 4]), ([8, 5, 2], [1, 7, 6, 3, 4, 10, 9]), ([5, 2, 8, 1], [7, 6, 3, 4, 10, 9]), ([2, 8, 1], [6, 3, 4, 10, 9, 7, 5]), ([8, 1], [3, 4, 10, 9, 7, 5, 6, 2]), ([1, 8, 3], [4, 10, 9, 7, 5, 6, 2])}, 5)
  {
    SampleRecursiveRound15Draw();
    assert |[1, 8, 3]| != |[9, 2, 6, 3, 1]|;
    assert |[1, 8, 3]| != |[2, 6, 3, 1, 9, 5]|;
    assert |[1, 8, 3]| != |[6, 3, 1, 9, 5]|;
    assert |[1, 8, 3]| != |[3, 1, 9, 5, 6, 4]|;
    assert |[1, 8, 3]| != |[1, 9, 5, 6, 4]|;
    assert |[1, 8, 3]| != |[9, 5, 6, 4]|;
    assert |[1, 8, 3]| != |[5, 6, 4, 9, 8]|;
    assert |[1, 8, 3]| != |[6, 4, 9, 8, 5, 2]|;
    assert |[1, 8, 3]| != |[4, 9, 8, 5, 2]|;
    assert |[1, 8, 3]| != |[9, 8, 5, 2]|;
    assert [1, 8, 3][0] != [8, 5, 2][0];
    assert |[1, 8, 3]| != |[5, 2, 8, 1]|;
    assert [1, 8, 3][0] != [2, 8, 1][0];
    assert |[1, 8, 3]| != |[8, 1]|;
    RecGameStep([1, 8, 3], [4, 10, 9, 7, 5, 6, 2], {([9, 2, 6, 3, 1], [5, 8, 4, 7, 10]), ([2, 6, 3, 1, 9, 5], [8, 4, 7, 10]), ([6, 3, 1, 9, 5], [4, 7, 10, 8, 2]), ([3, 1, 9, 5, 6, 4], [7, 10, 8, 2]), ([1, 9, 5, 6, 4], [10, 8, 2, 7, 3]), ([9, 5, 6, 4], [8, 2, 7, 3, 10, 1]), ([5, 6, 4, 9, 8], [2, 7, 3, 10, 1]), ([6, 4, 9, 8, 5, 2], [7, 3, 10, 1]), ([4, 9, 8, 5, 2], [3, 10, 1, 7, 6]), ([9, 8, 5, 2], [10, 1, 7, 6, 3, 4]), ([8, 5, 2], [1, 7, 6, 3, 4, 10, 9]), ([5, 2, 8, 1], [7, 6, 3, 4, 10, 9]), ([2, 8, 1], [6, 3, 4, 10, 9, 7, 5]), ([8, 1], [3, 4, 10, 9, 7, 5, 6, 2])}, 6, [8, 3], [10, 9, 7, 5, 6, 2, 4, 1]);
    assert {([9, 2, 6, 3, 1], [5, 8, 4, 7, 10]), ([2, 6, 3, 1, 9, 5], [8, 4, 7, 10]), ([6, 3, 1, 9, 5], [4, 7, 10, 8, 2]), ([3, 1, 9, 5, 6, 4], [7, 10, 8, 2]), ([1, 9, 5, 6, 4], [10, 8, 2, 7, 3]), ([9, 5, 6, 4], [8, 2, 7, 3, 10, 1]), ([5, 6, 4, 9, 8], [2, 7, 3, 10, 1]), ([6, 4, 9, 8, 5, 2], [7, 3, 10, 1]), ([4, 9, 8, 5, 2], [3, 10, 1, 7, 6]), ([9, 8, 5, 2], [10, 1, 7, 6, 3, 4]), ([8, 5, 2], [1, 7, 6, 3, 4, 10, 9]), ([5, 2, 8, 1], [7, 6, 3, 4, 10, 9]), ([2, 8, 1], [6, 3, 4, 10, 9, 7, 5]), ([8, 1], [3, 4, 10, 9, 7, 5, 6, 2])} + {([1, 8, 3], [4, 10, 9, 7, 5, 6, 2])} == {([9, 2, 6, 3, 1], [5, 8, 4, 7, 10]), ([2, 6, 3, 1, 9, 5], [8, 4, 7, 10]), ([6, 3, 1, 9, 5], [4, 7, 10, 8, 2]), ([3, 1, 9, 5, 6, 4], [7, 10, 8, 2]), ([1, 9, 5, 6, 4], [10, 8, 2, 7, 3]), ([9, 5, 6, 4], [8, 2, 7, 3, 10, 1]), ([5, 6, 4, 9, 8], [2, 7, 3, 10, 1]), ([6, 4, 9, 8, 5, 2], [7, 3, 10, 1]), ([4, 9, 8, 5, 2], [3, 10, 1, 7, 6]), ([9, 8, 5, 2], [10, 1, 7, 6, 3, 4]), ([8, 5, 2], [1, 7, 6, 3, 4, 10, 9]), ([5, 2, 8, 1], [7, 6, 3, 4, 10, 9]), ([2, 8, 1], [6, 3, 4, 10, 9, 7, 5]), ([8, 1], [3, 4, 10, 9, 7, 5, 6, 2]), ([1, 8, 3], [4, 10, 9, 7, 5, 6, 2])};
  }

  lemma SampleRecursiveRound16()
    ensures RecGame([8, 3], [10, 9, 7, 5, 6, 2, 4, 1], {([9, 2, 6, 3, 1], [5, 8, 4, 7, 10]), ([2, 6, 3, 1, 9, 5], [8, 4, 7, 10]), ([6, 3, 1, 9, 5], [4, 7, 10, 8, 2]), ([3, 1, 9, 5, 6, 4], [7, 10, 8, 2]), ([1, 9, 5, 6, 4], [10, 8, 2, 7, 3]), ([9, 5, 6, 4], [8, 2, 7, 3, 10, 1]), ([5, 6, 4, 9, 8], [2, 7, 3, 10, 1]), ([6, 4, 9, 8, 5, 2], [7, 3, 10, 1]), ([4, 9, 8, 5, 2], [3, 10, 1, 7, 6]), ([9, 8, 5, 2], [10, 1, 7, 6, 3, 4]), ([8, 5, 2], [1, 7, 6, 3, 4, 10, 9]), ([5, 2, 8, 1], [7, 6, 3, 4, 10, 9]), ([2, 8, 1], [6, 3, 4, 10, 9, 7, 5]), ([8, 1], [3, 4, 10, 9, 7, 5, 6, 2]), ([1, 8, 3], [4, 10, 9, 7, 5, 6, 2])}, 5)
         == RecGame([3], [9, 7, 5, 6, 2, 4, 1, 10, 8], {([9, 2, 6, 3, 1], [5, 8, 4, 7, 10]), ([2, 6, 3, 1, 9, 5], [8, 4, 7, 10]), ([6, 3, 1, 9, 5], [4, 7, 10, 8, 2]), ([3, 1, 9, 5, 6, 4], [7, 10, 8, 2]), ([1, 9, 5, 6, 4], [10, 8, 2, 7, 3]), ([9, 5, 6, 4], [8, 2, 7, 3, 10, 1]), ([5, 6, 4, 9, 8], [2, 7, 3, 10, 1]), ([6, 4, 9, 8, 5, 2], [7, 3, 10, 1]), ([4, 9, 8, 5, 2], [3, 10, 1, 7, 6]), ([9, 8, 5, 2], [10, 1, 7, 6, 3, 4]), ([8, 5, 2], [1, 7, 6, 3, 4, 10, 9]), ([5, 2, 8, 1], [7, 6, 3, 4, 10, 9]), ([2, 8, 1], [6, 3, 4, 10, 9, 7, 5]), ([8, 1], [3, 4, 10, 9, 7, 5, 6, 2]), ([1, 8, 3], [4, 10, 9, 7, 5, 6, 2]), ([8, 3], [10, 9, 7, 5, 6, 2, 4, 1])}, 4)
  {
    RecRoundPlain([8, 3], [10, 9, 7, 5, 6, 2, 4, 1], 4);
    assert [8, 3][1..] == [3];
    assert [10, 9, 7, 5, 6, 2, 4, 1][1..] == [9, 7, 5, 6, 2, 4, 1];
    assert [3] + [8, 10] == [3, 8, 10];
    assert [9, 7, 5, 6, 2, 4, 1] + [10, 8] == [9, 7, 5, 6, 2, 4, 1, 10, 8];
    assert RecRound([8, 3], [10, 9, 7, 5, 6, 2, 4, 1], 4) == Some(Ok(([3], [9, 7, 5, 6, 2, 4, 1, 10, 8])));
    assert |[8, 3]| != |[9, 2, 6, 3, 1]|;
    assert |[8, 3]| != |[2, 6, 3, 1, 9, 5]|;
    assert |[8, 3]| != |[6, 3, 1, 9, 5]|;
    assert |[8, 3]| != |[3, 1, 9, 5, 6, 4]|;
    assert |[8, 3]| != |[1, 9, 5, 6, 4]|;
    assert |[8, 3]| != |[9, 5, 6, 4]|;
    assert |[8, 3]| != |[5, 6, 4, 9, 8]|;
    assert |[8, 3]| != |[6, 4, 9, 8, 5, 2]|;
    assert |[8, 3]| != |[4, 9, 8, 5, 2]|;
    assert |[8, 3]| != |[9, 8, 5, 2]|;
    assert |[8, 3]| != |[8, 5, 2]|;
    assert |[8, 3]| != |[5, 2, 8, 1]|;
    assert |[8, 3]| != |[2, 8, 1]|;
    assert [8, 3][1] != [8, 1][1];
    assert |[8, 3]| != |[1, 8, 3]|;
    RecGameStep([8, 3], [10, 9, 7, 5, 6, 2, 4, 1], {([9, 2, 6, 3, 1], [5, 8, 4, 7, 10]), ([2, 6, 3, 1, 9, 5], [8, 4, 7, 10]), ([6, 3, 1, 9, 5], [4, 7, 10, 8, 2]), ([3, 1, 9, 5, 6, 4], [7, 10, 8, 2]), ([1, 9, 5, 6, 4], [10, 8, 2, 7, 3]), ([9, 5, 6, 4], [8, 2, 7, 3, 10, 1]), ([5, 6, 4, 9, 8], [2, 7, 3, 10, 1]), ([6, 4, 9, 8, 5, 2], [7, 3, 10, 1]), ([4, 9, 8, 5, 2], [3, 10, 1, 7, 6]), ([9, 8, 5, 2], [10, 1, 7, 6, 3, 4]), ([8, 5, 2], [1, 7, 6, 3, 4, 10, 9]), ([5, 2, 8, 1], [7, 6, 3, 4, 10, 9]), ([2, 8, 1], [6, 3, 4, 10, 9, 7, 5]), ([8, 1], [3, 4, 10, 9, 7, 5, 6, 2]), ([1, 8, 3], [4, 10, 9, 7, 5, 6, 2])}, 5, [3], [9, 7, 5, 6, 2, 4, 1, 10, 8]);
    assert {([9, 2, 6, 3, 1], [5, 8, 4, 7, 10]), ([2, 6, 3, 1, 9, 5], [8, 4, 7, 10]), ([6, 3, 1, 9, 5], [4, 7, 10, 8, 2]), ([3, 1, 9, 5, 6, 4], [7, 10, 8, 2]), ([1, 9, 5, 6, 4], [10, 8, 2, 7, 3]), ([9, 5, 6, 4], [8, 2, 7, 3, 10, 1]), ([5, 6, 4, 9, 8], [2, 7, 3, 10, 1]), ([6, 4, 9, 8, 5, 2], [7, 3, 10, 1]), ([4, 9, 8, 5, 2], [3, 10, 1, 7, 6]), ([9, 8, 5, 2], [10, 1, 7, 6, 3, 4]), ([8, 5, 2], [1, 7, 6, 3, 4, 10, 9]), ([5, 2, 8, 1], [7, 6, 3, 4, 10, 9]), ([2, 8, 1], [6, 3, 4, 10, 9, 7, 5]), ([8, 1], [3, 4, 10, 9, 7, 5, 6, 2]), ([1, 8, 3], [4, 10, 9, 7, 5, 6, 2])} + {([8, 3], [10, 9, 7, 5, 6, 2, 4, 1])} == {([9, 2, 6, 3, 1], [5, 8, 4, 7, 10]), ([2, 6, 3, 1, 9, 5], [8, 4, 7, 10]), ([6, 3, 1, 9, 5], [4, 7, 10, 8, 2]), ([3, 1, 9, 5, 6, 4], [7, 10, 8, 2]), ([1, 9, 5, 6, 4], [10, 8, 2, 7, 3]), ([9, 5, 6, 4], [8, 2, 7, 3, 10, 1]), ([5, 6, 4, 9, 8], [2, 7, 3, 10, 1]), ([6, 4, 9, 8, 5, 2], [7, 3, 10, 1]), ([4, 9, 8, 5, 2], [3, 10, 1, 7, 6]), ([9, 8, 5, 2], [10, 1, 7, 6, 3, 4]), ([8, 5, 2], [1, 7, 6, 3, 4, 10, 9]), ([5, 2, 8, 1], [7, 6, 3, 4, 10, 9]), ([2, 8, 1], [6, 3, 4, 10, 9, 7, 5]), ([8, 1], [3, 4, 10, 9, 7, 5, 6, 2]), ([1, 8, 3], [4, 10, 9, 7, 5, 6, 2]), ([8, 3], [10, 9, 7, 5, 6, 2, 4, 1])};
  }

  lemma SampleRecursiveRound17()
    ensures RecGame([3], [9, 7, 5, 6, 2, 4, 1, 10, 8], {([9, 2, 6, 3, 1], [5, 8, 4, 7, 10]), ([2, 6, 3, 1, 9, 5], [8, 4, 7, 10]), ([6, 3, 1, 9, 5], [4, 7, 10, 8, 2]), ([3, 1, 9, 5, 6, 4], [7, 10, 8, 2]), ([1, 9, 5, 6, 4], [10, 8, 2, 7, 3]), ([9, 5, 6, 4], [8, 2, 7, 3, 10, 1]), ([5, 6, 4, 9, 8], [2, 7, 3, 10, 1]), ([6, 4, 9, 8, 5, 2], [7, 3, 10, 1]), ([4, 9, 8, 5, 2], [3, 10, 1, 7, 6]), ([9, 8, 5, 2], [10, 1, 7, 6, 3, 4]), ([8, 5, 2], [1, 7, 6, 3, 4, 10, 9]), ([5, 2, 8, 1], [7, 6, 3, 4, 10, 9]), ([2, 8, 1], [6, 3, 4, 10, 9, 7, 5]), ([8, 1], [3, 4, 10, 9, 7, 5, 6, 2]), ([1, 8, 3], [4, 10, 9, 7, 5, 6, 2]), ([8, 3], [10, 9, 7, 5, 6, 2, 4, 1])}, 4)
         == RecGame([], [7, 5, 6, 2, 4, 1, 10, 8, 9, 3], {([9, 2, 6, 3, 1], [5, 8, 4, 7, 10]), ([2, 6, 3, 1, 9, 5], [8, 4, 7, 10]), ([6, 3, 1, 9, 5], [4, 7, 10, 8, 2]), ([3, 1, 9, 5, 6, 4], [7, 10, 8, 2]), ([1, 9, 5, 6, 4], [10, 8, 2, 7, 3]), ([9, 5, 6, 4], [8, 2, 7, 3, 10, 1]), ([5, 6, 4, 9, 8], [2, 7, 3, 10, 1]), ([6, 4, 9, 8, 5, 2], [7, 3, 10, 1]), ([4, 9, 8, 5, 2], [3, 10, 1, 7, 6]), ([9, 8, 5, 2], [10, 1, 7, 6, 3, 4]), ([8, 5, 2], [1, 7, 6, 3, 4, 10, 9]), ([5, 2, 8, 1], [7, 6, 3, 4, 10, 9]), ([2, 8, 1], [6, 3, 4, 10, 9, 7, 5]), ([8, 1], [3, 4, 10, 9, 7, 5, 6, 2]), ([1, 8, 3], [4, 10, 9, 7, 5, 6, 2]), ([8, 3], [10, 9, 7, 5, 6, 2, 4, 1]), ([3], [9, 7, 5, 6, 2, 4, 1, 10, 8])}, 3)
  {
    RecRoundPlain([3], [9, 7, 5, 6, 2, 4, 1, 10, 8], 3);
    assert [3][1..] == [];
    assert [9, 7, 5, 6, 2, 4, 1, 10, 8][1..] == [7, 5, 6, 2, 4, 1, 10, 8];
    assert [] + [3, 9] == [3, 9];
    assert [7, 5, 6, 2, 4, 1, 10, 8] + [9, 3] == [7, 5, 6, 2, 4, 1, 10, 8, 9, 3];
    assert RecRound([3], [9, 7, 5, 6, 2, 4, 1, 10, 8], 3) == Some(Ok(([], [7, 5, 6, 2, 4, 1, 10, 8, 9, 3])));
    assert |[3]| != |[9, 2, 6, 3, 1]|;
    assert |[3]| != |[2, 6, 3, 1, 9, 5]|;
    assert |[3]| != |[6, 3, 1, 9, 5]|;
    assert |[3]| != |[3, 1, 9, 5, 6, 4]|;
    assert |[3]| != |[1, 9, 5, 6, 4]|;
    assert |[3]| != |[9, 5, 6, 4]|;
    assert |[3]| != |[5, 6, 4, 9, 8]|;
    assert |[3]| != |[6, 4, 9, 8, 5, 2]|;
    assert |[3]| != |[4, 9, 8, 5, 2]|;
    assert |[3]| != |[9, 8, 5, 2]|;
    assert |[3]| != |[8, 5, 2]|;
    assert |[3]| != |[5, 2, 8, 1]|;
    assert |[3]| != |[2, 8, 1]|;
    assert |[3]| != |[8, 1]|;
    assert |[3]| != |[1, 8, 3]|;
    assert |[3]| != |[8, 3]|;
    RecGameStep([3], [9, 7, 5, 6, 2, 4, 1, 10, 8], {([9, 2, 6, 3, 1], [5, 8, 4, 7, 10]), ([2, 6, 3, 1, 9, 5], [8, 4, 7, 10]), ([6, 3, 1, 9, 5], [4, 7, 10, 8, 2]), ([3, 1, 9, 5, 6, 4], [7, 10, 8, 2]), ([1, 9, 5, 6, 4], [10, 8, 2, 7, 3]), ([9, 5, 6, 4], [8, 2, 7, 3, 10, 1]), ([5, 6, 4, 9, 8], [2, 7, 3, 10, 1]), ([6, 4, 9, 8, 5, 2], [7, 3, 10, 1]), ([4, 9, 8, 5, 2], [3, 10, 1, 7, 6]), ([9, 8, 5, 2], [10, 1, 7, 6, 3, 4]), ([8, 5, 2], [1, 7, 6, 3, 4, 10, 9]), ([5, 2, 8, 1], [7, 6, 3, 4, 10, 9]), ([2, 8, 1], [6, 3, 4, 10, 9, 7, 5]), ([8, 1], [3, 4, 10, 9, 7, 5, 6, 2]), ([1, 8, 3], [4, 10, 9, 7, 5, 6, 2]), ([8, 3], [10, 9, 7, 5, 6, 2, 4, 1])}, 4, [], [7, 5, 6, 2, 4, 1, 10, 8, 9, 3]);
    assert {([9, 2, 6, 3, 1], [5, 8, 4, 7, 10]), ([2, 6, 3, 1, 9, 5], [8, 4, 7, 10]), ([6, 3, 1, 9, 5], [4, 7, 10, 8, 2]), ([3, 1, 9, 5, 6, 4], [7, 10, 8, 2]), ([1, 9, 5, 6, 4], [10, 8, 2, 7, 3]), ([9, 5, 6, 4], [8, 2, 7, 3, 10, 1]), ([5, 6, 4, 9, 8], [2, 7, 3, 10, 1]), ([6, 4, 9, 8, 5, 2], [7, 3, 10, 1]), ([4, 9, 8, 5, 2], [3, 10, 1, 7, 6]), ([9, 8, 5, 2], [10, 1, 7, 6, 3, 4]), ([8, 5, 2], [1, 7, 6, 3, 4, 10, 9]), ([5, 2, 8, 1], [7, 6, 3, 4, 10, 9]), ([2, 8, 1], [6, 3, 4, 10, 9, 7, 5]), ([8, 1], [3, 4, 10, 9, 7, 5, 6, 2]), ([1, 8, 3], [4, 10, 9, 7, 5, 6, 2]), ([8, 3], [10, 9, 7, 5, 6, 2, 4, 1])} + {([3], [9, 7, 5, 6, 2, 4, 1, 10, 8])} == {([9, 2, 6, 3, 1], [5, 8, 4, 7, 10]), ([2, 6, 3, 1, 9, 5], [8, 4, 7, 10]), ([6, 3, 1, 9, 5], [4, 7, 10, 8, 2]), ([3, 1, 9, 5, 6, 4], [7, 10, 8, 2]), ([1, 9, 5, 6, 4], [10, 8, 2, 7, 3]), ([9, 5, 6, 4], [8, 2, 7, 3, 10, 1]), ([5, 6, 4, 9, 8], [2, 7, 3, 10, 1]), ([6, 4, 9, 8, 5, 2], [7, 3, 10, 1]), ([4, 9, 8, 5, 2], [3, 10, 1, 7, 6]), ([9, 8, 5, 2], [10, 1, 7, 6, 3, 4]), ([8, 5, 2], [1, 7, 6, 3, 4, 10, 9]), ([5, 2, 8, 1], [7, 6, 3, 4, 10, 9]), ([2, 8, 1], [6, 3, 4, 10, 9, 7, 5]), ([8, 1], [3, 4, 10, 9, 7, 5, 6, 2]), ([1, 8, 3], [4, 10, 9, 7, 5, 6, 2]), ([8, 3], [10, 9, 7, 5, 6, 2, 4, 1]), ([3], [9, 7, 5, 6, 2, 4, 1, 10, 8])};
  }

  lemma SampleRecursive()
    ensures RecGame([9, 2, 6, 3, 1], [5, 8, 4, 7, 10], {}, 20) == Some(Ok(End(1, [], [7, 5, 6, 2, 4, 1, 10, 8, 9, 3])))
  {
    SampleRecursiveRound1();
    SampleRecursiveRound2();
    SampleRecursiveRound3();
    SampleRecursiveRound4();
    SampleRecursiveRound5();
    SampleRecursiveRound6();
    SampleRecursiveRound7();
    SampleRecursiveRound8();
    SampleRecursiveRound9();
    SampleRecursiveRound10();
    SampleRecursiveRound11();
    SampleRecursiveRound12();
    SampleRecursiveRound13();
    SampleRecursiveRound14();
    SampleRecursiveRound15();
    SampleRecursiveRound16();
    SampleRecursiveRound17();
  }

  lemma SubGame1Round1()
    ensures RecGame([9, 8, 5, 2], [10, 1, 7], {}, 11)
         == RecGame([8, 5, 2], [1, 7, 10, 9], {([9, 8, 5, 2], [10, 1, 7])}, 10)
  {
    RecRoundPlain([9, 8, 5, 2], [10, 1, 7], 10);
    assert [9, 8, 5, 2][1..] == [8, 5, 2];
    assert [10, 1, 7][1..] == [1, 7];
    assert [8, 5, 2] + [9, 10] == [8, 5, 2, 9, 10];
    assert [1, 7] + [10, 9] == [1, 7, 10, 9];
    assert RecRound([9, 8, 5, 2], [10, 1, 7], 10) == Some(Ok(([8, 5, 2], [1, 7, 10, 9])));
    RecGameStep([9, 8, 5, 2], [10, 1, 7], {}, 11, [8, 5, 2], [1, 7, 10, 9]);
    assert {} + {([9, 8, 5, 2], [10, 1, 7])} == {([9, 8, 5, 2], [10, 1, 7])};
  }

  lemma SubGame1Round2()
    ensures RecGame([8, 5, 2], [1, 7, 10, 9], {([9, 8, 5, 2], [10, 1, 7])}, 10)
         == RecGame([5, 2, 8, 1], [7, 10, 9], {([9, 8, 5, 2], [10, 1, 7]), ([8, 5, 2], [1, 7, 10, 9])}, 9)
  {
    RecRoundPlain([8, 5, 2], [1, 7, 10, 9], 9);
    assert [8, 5, 2][1..] == [5, 2];
    assert [1, 7, 10, 9][1..] == [7, 10, 9];
    assert [5, 2] + [8, 1] == [5, 2, 8, 1];
    assert [7, 10, 9] + [1, 8] == [7, 10, 9, 1, 8];
    assert RecRound([8, 5, 2], [1, 7, 10, 9], 9) == Some(Ok(([5, 2, 8, 1], [7, 10, 9])));
    assert |[8, 5, 2]| != |[9, 8, 5, 2]|;
    RecGameStep([8, 5, 2], [1, 7, 10, 9], {([9, 8, 5, 2], [10, 1, 7])}, 10, [5, 2, 8, 1], [7, 10, 9]);
    assert {([9, 8, 5, 2], [10, 1, 7])} + {([8, 5, 2], [1, 7, 10, 9])} == {([9, 8, 5, 2], [10, 1, 7]), ([8, 5, 2], [1, 7, 10, 9])};
  }

  lemma SubGame1Round3()
    ensures RecGame([5, 2, 8, 1], [7, 10, 9], {([9, 8, 5, 2], [10, 1, 7]), ([8, 5, 2], [1, 7, 10, 9])}, 9)
         == RecGame([2, 8, 1], [10, 9, 7, 5], {([9, 8, 5, 2], [10, 1, 7]), ([8, 5, 2], [1, 7, 10, 9]), ([5, 2, 8, 1], [7, 10, 9])}, 8)
  {
    RecRoundPlain([5, 2, 8, 1], [7, 10, 9], 8);
    assert [5, 2, 8, 1][1..] == [2, 8, 1];
    assert [7, 10, 9][1..] == [10, 9];
    assert [2, 8, 1] + [5, 7] == [2, 8, 1, 5, 7];
    assert [10, 9] + [7, 5] == [10, 9, 7, 5];
    assert RecRound([5, 2, 8, 1], [7, 10, 9], 8) == Some(Ok(([2, 8, 1], [10, 9, 7, 5])));
    assert [5, 2, 8, 1][0] != [9, 8, 5, 2][0];
    assert |[5, 2, 8, 1]| != |[8, 5, 2]|;
    RecGameStep([5, 2, 8, 1], [7, 10, 9], {([9, 8, 5, 2], [10, 1, 7]), ([8, 5, 2], [1, 7, 10, 9])}, 9, [2, 8, 1], [10, 9, 7, 5]);
    assert {([9, 8, 5, 2], [10, 1, 7]), ([8, 5, 2], [1, 7, 10, 9])} + {([5, 2, 8, 1], [7, 10, 9])} == {([9, 8, 5, 2], [10, 1, 7]), ([8, 5, 2], [1, 7, 10, 9]), ([5, 2, 8, 1], [7, 10, 9])};
  }

  lemma SubGame1Round4()
    ensures RecGame([2, 8, 1], [10, 9, 7, 5], {([9, 8, 5, 2], [10, 1, 7]), ([8, 5, 2], [1, 7, 10, 9]), ([5, 2, 8, 1], [7, 10, 9])}, 8)
         == RecGame([8, 1], [9, 7, 5, 10, 2], {([9, 8, 5, 2], [10, 1, 7]), ([8, 5, 2], [1, 7, 10, 9]), ([5, 2, 8, 1], [7, 10, 9]), ([2, 8, 1], [10, 9, 7, 5])}, 7)
  {
    RecRoundPlain([2, 8, 1], [10, 9, 7, 5], 7);
    assert [2, 8, 1][1..] == [8, 1];
    assert [10, 9, 7, 5][1..] == [9, 7, 5];
    assert [8, 1] + [2, 10] == [8, 1, 2, 10];
    assert [9, 7, 5] + [10, 2] == [9, 7, 5, 10, 2];
    assert RecRound([2, 8, 1], [10, 9, 7, 5], 7) == Some(Ok(([8, 1], [9, 7, 5, 10, 2])));
    assert |[2, 8, 1]| != |[9, 8, 5, 2]|;
    assert [2, 8, 1][0] != [8, 5, 2][0];
    assert |[2, 8, 1]| != |[5, 2, 8, 1]|;
    RecGameStep([2, 8, 1], [10, 9, 7, 5], {([9, 8, 5, 2], [10, 1, 7]), ([8, 5, 2], [1, 7, 10, 9]), ([5, 2, 8, 1], [7, 10, 9])}, 8, [8, 1], [9, 7, 5, 10, 2]);
    assert {([9, 8, 5, 2], [10, 1, 7]), ([8, 5, 2], [1, 7, 10, 9]), ([5, 2, 8, 1], [7, 10, 9])} + {([2, 8, 1], [10, 9, 7, 5])} == {([9, 8, 5, 2], [10, 1, 7]), ([8, 5, 2], [1, 7, 10, 9]), ([5, 2, 8, 1], [7, 10, 9]), ([2, 8, 1], [10, 9, 7, 5])};
  }

  lemma SubGame1Round5()
    ensures RecGame([8, 1], [9, 7, 5, 10, 2], {([9, 8, 5, 2], [10, 1, 7]), ([8, 5, 2], [1, 7, 10, 9]), ([5, 2, 8, 1], [7, 10, 9]), ([2, 8, 1], [10, 9, 7, 5])}, 7)
         == RecGame([1], [7, 5, 10, 2, 9, 8], {([9, 8, 5, 2], [10, 1, 7]), ([8, 5, 2], [1, 7, 10, 9]), ([5, 2, 8, 1], [7, 10, 9]), ([2, 8, 1], [10, 9, 7, 5]), ([8, 1], [9, 7, 5, 10, 2])}, 6)
  {
    RecRoundPlain([8, 1], [9, 7, 5, 10, 2], 6);
    assert [8, 1][1..] == [1];
    assert [9, 7, 5, 10, 2][1..] == [7, 5, 10, 2];
    assert [1] + [8, 9] == [1, 8, 9];
    assert [7, 5, 10, 2] + [9, 8] == [7, 5, 10, 2, 9, 8];
    assert RecRound([8, 1], [9, 7, 5, 10, 2], 6) == Some(Ok(([1], [7, 5, 10, 2, 9, 8])));
    assert |[8, 1]| != |[9, 8, 5, 2]|;
    assert |[8, 1]| != |[8, 5, 2]|;
    assert |[8, 1]| != |[5, 2, 8, 1]|;
    assert |[8, 1]| != |[2, 8, 1]|;
    RecGameStep([8, 1], [9, 7, 5, 10, 2], {([9, 8, 5, 2], [10, 1, 7]), ([8, 5, 2], [1, 7, 10, 9]), ([5, 2, 8, 1], [7, 10, 9]), ([2, 8, 1], [10, 9, 7, 5])}, 7, [1], [7, 5, 10, 2, 9, 8]);
    assert {([9, 8, 5, 2], [10, 1, 7]), ([8, 5, 2], [1, 7, 10, 9]), ([5, 2, 8, 1], [7, 10, 9]), ([2, 8, 1], [10, 9, 7, 5])} + {([8, 1], [9, 7, 5, 10, 2])} == {([9, 8, 5, 2], [10, 1, 7]), ([8, 5, 2], [1, 7, 10, 9]), ([5, 2, 8, 1], [7, 10, 9]), ([2, 8, 1], [10, 9, 7, 5]), ([8, 1], [9, 7, 5, 10, 2])};
  }

  lemma SubGame1Round6()
    ensures RecGame([1], [7, 5, 10, 2, 9, 8], {([9, 8, 5, 2], [10, 1, 7]), ([8, 5, 2], [1, 7, 10, 9]), ([5, 2, 8, 1], [7, 10, 9]), ([2, 8, 1], [10, 9, 7, 5]), ([8, 1], [9, 7, 5, 10, 2])}, 6)
         == RecGame([], [5, 10, 2, 9, 8, 7, 1], {([9, 8, 5, 2], [10, 1, 7]), ([8, 5, 2], [1, 7, 10, 9]), ([5, 2, 8, 1], [7, 10, 9]), ([2, 8, 1], [10, 9, 7, 5]), ([8, 1], [9, 7, 5, 10, 2]), ([1], [7, 5, 10, 2, 9, 8])}, 5)
  {
    RecRoundPlain([1], [7, 5, 10, 2, 9, 8], 5);
    assert [1][1..] == [];
    assert [7, 5, 10, 2, 9, 8][1..] == [5, 10, 2, 9, 8];
    assert [] + [1, 7] == [1, 7];
    assert [5, 10, 2, 9, 8] + [7, 1] == [5, 10, 2, 9, 8, 7, 1];
    assert RecRound([1], [7, 5, 10, 2, 9, 8], 5) == Some(Ok(([], [5, 10, 2, 9, 8, 7, 1])));
    assert |[1]| != |[9, 8, 5, 2]|;
    assert |[1]| != |[8, 5, 2]|;
    assert |[1]| != |[5, 2, 8, 1]|;
    assert |[1]| != |[2, 8, 1]|;
    assert |[1]| != |[8, 1]|;
    RecGameStep([1], [7, 5, 10, 2, 9, 8], {([9, 8, 5, 2], [10, 1, 7]), ([8, 5, 2], [1, 7, 10, 9]), ([5, 2, 8, 1], [7, 10, 9]), ([2, 8, 1], [10, 9, 7, 5]), ([8, 1], [9, 7, 5, 10, 2])}, 6, [], [5, 10, 2, 9, 8, 7, 1]);
    assert {([9, 8, 5, 2], [10, 1, 7]), ([8, 5, 2], [1, 7, 10, 9]), ([5, 2, 8, 1], [7, 10, 9]), ([2, 8, 1], [10, 9, 7, 5]), ([8, 1], [9, 7, 5, 10, 2])} + {([1], [7, 5, 10, 2, 9, 8])} == {([9, 8, 5, 2], [10, 1, 7]), ([8, 5, 2], [1, 7, 10, 9]), ([5, 2, 8, 1], [7, 10, 9]), ([2, 8, 1], [10, 9, 7, 5]), ([8, 1], [9, 7, 5, 10, 2]), ([1], [7, 5, 10, 2, 9, 8])};
  }

  lemma SubGame1()
    ensures RecGame([9, 8, 5, 2], [10, 1, 7], {}, 11) == Some(Ok(End(1, [], [5, 10, 2, 9, 8, 7, 1])))
  {
    SubGame1Round1();
    SubGame1Round2();
    SubGame1Round3();
    SubGame1Round4();
    SubGame1Round5();
    SubGame1Round6();
  }

  lemma SubGame2Round1()
    ensures RecGame([8, 1], [3, 4, 10, 9, 7, 5], {}, 7)
         == RecGame([1, 8, 3], [4, 10, 9, 7, 5], {([8, 1], [3, 4, 10, 9, 7, 5])}, 6)
  {
    RecRoundPlain([8, 1], [3, 4, 10, 9, 7, 5], 6);
    assert [8, 1][1..] == [1];
    assert [3, 4, 10, 9, 7, 5][1..] == [4, 10, 9, 7, 5];
    assert [1] + [8, 3] == [1, 8, 3];
    assert [4, 10, 9, 7, 5] + [3, 8] == [4, 10, 9, 7, 5, 3, 8];
    assert RecRound([8, 1], [3, 4, 10, 9, 7, 5], 6) == Some(Ok(([1, 8, 3], [4, 10, 9, 7, 5])));
    RecGameStep([8, 1], [3, 4, 10, 9, 7, 5], {}, 7, [1, 8, 3], [4, 10, 9, 7, 5]);
    assert {} + {([8, 1], [3, 4, 10, 9, 7, 5])} == {([8, 1], [3, 4, 10, 9, 7, 5])};
  }

  lemma SubGame2Round2Draw()
    ensures RecRound([1, 8, 3], [4, 10, 9, 7, 5], 5) == Some(Ok(([8, 3], [10, 9, 7, 5, 4, 1])))
  {
    assert [1, 8, 3][1..][..1] == [8];
    assert [4, 10, 9, 7, 5][1..][..4] == [10, 9, 7, 5];
    assert [1, 8, 3][1..] == [8, 3];
    assert [4, 10, 9, 7, 5][1..] == [10, 9, 7, 5];
    assert [8, 3] + [1, 4] == [8, 3, 1, 4];
    assert [10, 9, 7, 5] + [4, 1] == [10, 9, 7, 5, 4, 1];
    SubGame3();
    RecRoundSubGame([1, 8, 3], [4, 10, 9, 7, 5], 5);
  }

  lemma SubGame2Round2()
    ensures RecGame([1, 8, 3], [4, 10, 9, 7, 5], {([8, 1], [3, 4, 10, 9, 7, 5])}, 6)
         == RecGame([8, 3], [10, 9, 7, 5, 4, 1], {([8, 1], [3, 4, 10, 9, 7, 5]), ([1, 8, 3], [4, 10, 9, 7, 5])}, 5)
  {
    SubGame2Round2Draw();
    assert |[1, 8, 3]| != |[8, 1]|;
    RecGameStep([1, 8, 3], [4, 10, 9, 7, 5], {([8, 1], [3, 4, 10, 9, 7, 5])}, 6, [8, 3], [10, 9, 7, 5, 4, 1]);
    assert {([8, 1], [3, 4, 10, 9, 7, 5])} + {([1, 8, 3], [4, 10, 9, 7, 5])} == {([8, 1], [3, 4, 10, 9, 7, 5]), ([1, 8, 3], [4, 10, 9, 7, 5])};
  }

  lemma SubGame2Round3()
    ensures RecGame([8, 3], [10, 9, 7, 5, 4, 1], {([8, 1], [3, 4, 10, 9, 7, 5]), ([1, 8, 3], [4, 10, 9, 7, 5])}, 5)
         == RecGame([3], [9, 7, 5, 4, 1, 10, 8], {([8, 1], [3, 4, 10, 9, 7, 5]), ([1, 8, 3], [4, 10, 9, 7, 5]), ([8, 3], [10, 9, 7, 5, 4, 1])}, 4)
  {
    RecRoundPlain([8, 3], [10, 9, 7, 5, 4, 1], 4);
    assert [8, 3][1..] == [3];
    assert [10, 9, 7, 5, 4, 1][1..] == [9, 7, 5, 4, 1];
    assert [3] + [8, 10] == [3, 8, 10];
    assert [9, 7, 5, 4, 1] + [10, 8] == [9, 7, 5, 4, 1, 10, 8];
    assert RecRound([8, 3], [10, 9, 7, 5, 4, 1], 4) == Some(Ok(([3], [9, 7, 5, 4, 1, 10, 8])));
    assert [8, 3][1] != [8, 1][1];
    assert |[8, 3]| != |[1, 8, 3]|;
    RecGameStep([8, 3], [10, 9, 7, 5, 4, 1], {([8, 1], [3, 4, 10, 9, 7, 5]), ([1, 8, 3], [4, 10, 9, 7, 5])}, 5, [3], [9, 7, 5, 4, 1, 10, 8]);
    assert {([8, 1], [3, 4, 10, 9, 7, 5]), ([1, 8, 3], [4, 10, 9, 7, 5])} + {([8, 3], [10, 9, 7, 5, 4, 1])} == {([8, 1], [3, 4, 10, 9, 7, 5]), ([1, 8, 3], [4, 10, 9, 7, 5]), ([8, 3], [10, 9, 7, 5, 4, 1])};
  }

  lemma SubGame2Round4()
    ensures RecGame([3], [9, 7, 5, 4, 1, 10, 8], {([8, 1], [3, 4, 10, 9, 7, 5]), ([1, 8, 3], [4, 10, 9, 7, 5]), ([8, 3], [10, 9, 7, 5, 4, 1])}, 4)
         == RecGame([], [7, 5, 4, 1, 10, 8, 9, 3], {([8, 1], [3, 4, 10, 9, 7, 5]), ([1, 8, 3], [4, 10, 9, 7, 5]), ([8, 3], [10, 9, 7, 5, 4, 1]), ([3], [9, 7, 5, 4, 1, 10, 8])}, 3)
  {
    RecRoundPlain([3], [9, 7, 5, 4, 1, 10, 8], 3);
    assert [3][1..] == [];
    assert [9, 7, 5, 4, 1, 10, 8][1..] == [7, 5, 4, 1, 10, 8];
    assert [] + [3, 9] == [3, 9];
    assert [7, 5, 4, 1, 10, 8] + [9, 3] == [7, 5, 4, 1, 10, 8, 9, 3];
    assert RecRound([3], [9, 7, 5, 4, 1, 10, 8], 3) == Some(Ok(([], [7, 5, 4, 1, 10, 8, 9, 3])));
    assert |[3]| != |[8, 1]|;
    assert |[3]| != |[1, 8, 3]|;
    assert |[3]| != |[8, 3]|;
    RecGameStep([3], [9, 7, 5, 4, 1, 10, 8], {([8, 1], [3, 4, 10, 9, 7, 5]), ([1, 8, 3], [4, 10, 9, 7, 5]), ([8, 3], [10, 9, 7, 5, 4, 1])}, 4, [], [7, 5, 4, 1, 10, 8, 9, 3]);
    assert {([8, 1], [3, 4, 10, 9, 7, 5]), ([1, 8, 3], [4, 10, 9, 7, 5]), ([8, 3], [10, 9, 7, 5, 4, 1])} + {([3], [9, 7, 5, 4, 1, 10, 8])} == {([8, 1], [3, 4, 10, 9, 7, 5]), ([1, 8, 3], [4, 10, 9, 7, 5]), ([8, 3], [10, 9, 7, 5, 4, 1]), ([3], [9, 7, 5, 4, 1, 10, 8])};
  }

  lemma SubGame2()
    ensures RecGame([8, 1], [3, 4, 10, 9, 7, 5], {}, 7) == Some(Ok(End(1, [], [7, 5, 4, 1, 10, 8, 9, 3])))
  {
    SubGame2Round1();
    SubGame2Round2();
    SubGame2Round3();
    SubGame2Round4();
  }

  lemma SubGame3Round1()
    ensures RecGame([8], [10, 9, 7, 5], {}, 5)
         == RecGame([], [9, 7, 5, 10, 8], {([8], [10, 9, 7, 5])}, 4)
  {
    RecRoundPlain([8], [10, 9, 7, 5], 4);
    assert [8][1..] == [];
    assert [10, 9, 7, 5][1..] == [9, 7, 5];
    assert [] + [8, 10] == [8, 10];
    assert [9, 7, 5] + [10, 8] == [9, 7, 5, 10, 8];
    assert RecRound([8], [10, 9, 7, 5], 4) == Some(Ok(([], [9, 7, 5, 10, 8])));
    RecGameStep([8], [10, 9, 7, 5], {}, 5, [], [9, 7, 5, 10, 8]);
    assert {} + {([8], [10, 9, 7, 5])} == {([8], [10, 9, 7, 5])};
  }

  lemma SubGame3()
    ensures RecGame([8], [10, 9, 7, 5], {}, 5) == Some(Ok(End(1, [], [9, 7, 5, 10, 8])))
  {
    SubGame3Round1();
  }
  /** The recursive game on the sample decks: player 2 wins with a score of 291. */
  lemma SampleRecursiveResult()
    ensures Reported(RecGame([9, 2, 6, 3, 1], [5, 8, 4, 7, 10], {}, 20)) == Some(Ok((1, 291)))
  {
    SampleRecursive();
    FinalRecursiveScore();
  }
}
