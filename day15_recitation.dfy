/**
 * Day 15 (15/15.py): the memory game. The starting numbers are spoken first;
 * after them each turn speaks 0 if the previous number was new, otherwise how
 * many turns apart its last two utterances were. `ages` remembers, for every
 * number spoken so far, the last two turns on which it was spoken.
 */
module Recitation {
  import opened Base

  /** An `ages` entry: the turn before the last one on which a number was spoken (None the first
   * time) and the last such turn. */
  datatype Age = Age(prev: Option<int>, last: int)

  // ---------------------------------------------------------------- one turn

  /** `iterate(n, ages, turn)`: the number spoken at `turn` and the table after it. A number not yet
   * in the table is recorded and spoken itself; otherwise its age is spoken, and the spoken
   * number's entry moves its last turn into the first field and records `turn`. */
  function Iterate(n: int, ages: map<int, Age>, turn: int): (r: (int, map<int, Age>))
    ensures n !in ages ==> r.0 == n
    ensures n in ages ==> r.0 == if ages[n].prev.None? then 0 else ages[n].last - ages[n].prev.value
    ensures r.1.Keys == ages.Keys + {r.0}
    ensures r.1[r.0] == Age(if n in ages && r.0 in ages then Some(ages[r.0].last) else None, turn)
    ensures forall k :: k in ages && k != r.0 ==> r.1[k] == ages[k]
  {
    if n in ages then
      var age := ages[n];
      var said := if age.prev.None? then 0 else age.last - age.prev.value;
      if said in ages then (said, ages[said := Age(Some(ages[said].last), turn)])
      else (said, ages[said := Age(None, turn)])
    else
      (n, ages[n := Age(None, turn)])
  }

  /** Every entry's turns are at least 1 and at most `turn`, and its first turn precedes its last. */
  predicate AgesValid(ages: map<int, Age>, turn: int) {
    forall k :: k in ages ==>
      1 <= ages[k].last <= turn && (ages[k].prev.Some? ==> ages[k].prev.value < ages[k].last)
  }

  /** A turn keeps the table valid, and the age it speaks is never negative. */
  lemma IterateValid(n: int, ages: map<int, Age>, turn: int)
    requires turn >= 1 && AgesValid(ages, turn - 1)
    ensures AgesValid(Iterate(n, ages, turn).1, turn)
    ensures n in ages ==> Iterate(n, ages, turn).0 >= 0
  {
    var (said, next) := Iterate(n, ages, turn);
    forall k | k in next
      ensures 1 <= next[k].last <= turn && (next[k].prev.Some? ==> next[k].prev.value < next[k].last)
    {
      if k != said {
        assert next[k] == ages[k];
      }
    }
  }

  // ---------------------------------------------------------------- the game

  /** The variables of `memory_game` between turns: the last spoken number (None while unbound)
   * and the table. */
  datatype Game = Game(n: Option<int>, ages: map<int, Age>)

  /** The state after turns 1 to `turns`; a turn with no starting number left and no number spoken
   * yet reads the unbound `n` and raises UnboundLocalError. */
  function Play(input: seq<int>, turns: nat): Result<Game>
    decreases turns
  {
    if turns == 0 then Ok(Game(None, map[]))
    else match Play(input, turns - 1)
      case Err(m) => Err(m)
      case Ok(g) =>
        var n := if turns <= |input| then Some(input[turns - 1]) else g.n;
        if n.None? then Err("UnboundLocalError")
        else
          var (said, ages) := Iterate(n.value, g.ages, turns);
          Ok(Game(Some(said), ages))
  }

  /** What `memory_game(input, max_turns)` returns: the number spoken on the last turn, or
   * UnboundLocalError when no turn ran. */
  function GameResult(input: seq<int>, maxTurns: int): Result<int> {
    match Play(input, if maxTurns < 1 then 0 else maxTurns)
    case Err(m) => Err(m)
    case Ok(g) => if g.n.None? then Err("UnboundLocalError") else Ok(g.n.value)
  }

  /** `memory_game`: the turn loop over the `ages` table. */
  method MemoryGame(input: seq<int>, maxTurns: int) returns (r: Result<int>)
    ensures r == GameResult(input, maxTurns)
  {
    var ages: map<int, Age> := map[];
    var n: Option<int> := None;
    var turn := 1;
    while turn <= maxTurns
      invariant 1 <= turn <= if maxTurns < 1 then 1 else maxTurns + 1
      invariant Play(input, turn - 1) == Ok(Game(n, ages))
      decreases maxTurns - turn
    {
      if turn <= |input| {
        n := Some(input[turn - 1]);
      }
      if n.None? {
        ErrPersists(input, turn, maxTurns);
        return Err("UnboundLocalError");
      }
      var (said, next) := Iterate(n.value, ages, turn);
      n, ages := Some(said), next;
      turn := turn + 1;
    }
    if n.None? {
      return Err("UnboundLocalError");
    }
    return Ok(n.value);
  }

  /** Once a turn has raised, every longer game raises the same error. */
  lemma {:induction false} ErrPersists(input: seq<int>, turns: nat, later: nat)
    requires Play(input, turns).Err? && turns <= later
    ensures Play(input, later) == Play(input, turns)
    decreases later - turns
  {
    if turns < later {
      ErrPersists(input, turns, later - 1);
    }
  }

  /** With starting numbers, every turn speaks a number. */
  lemma {:induction false} PlayOk(input: seq<int>, turns: nat)
    requires input != []
    ensures Play(input, turns).Ok?
    ensures turns >= 1 ==> Play(input, turns).value.n.Some?
  {
    if turns > 0 {
      PlayOk(input, turns - 1);
    }
  }

  /** `memory_game` fails exactly when no turn is played or there are no starting numbers: `n` is
   * then unbound. */
  lemma GameFails(input: seq<int>, maxTurns: int)
    ensures GameResult(input, maxTurns).Err? <==> maxTurns < 1 || input == []
    ensures GameResult(input, maxTurns).Err? ==> GameResult(input, maxTurns) == Err("UnboundLocalError")
  {
    if input == [] && maxTurns >= 1 {
      ErrPersists(input, 1, maxTurns);
    }
    if input != [] && maxTurns >= 1 {
      PlayOk(input, maxTurns);
    }
  }

  /** The table stays valid through every turn. */
  lemma {:induction false} PlayValid(input: seq<int>, turns: nat)
    requires Play(input, turns).Ok?
    ensures AgesValid(Play(input, turns).value.ages, turns)
  {
    if turns > 0 {
      ErrOrOk(input, turns);
      PlayValid(input, turns - 1);
      var g := Play(input, turns - 1).value;
      var n := if turns <= |input| then input[turns - 1] else g.n.value;
      IterateValid(n, g.ages, turns);
    }
  }

  lemma ErrOrOk(input: seq<int>, turns: nat)
    requires turns > 0 && Play(input, turns).Ok?
    ensures Play(input, turns - 1).Ok?
    ensures turns > |input| ==> Play(input, turns - 1).value.n.Some?
  {
  }

  // ---------------------------------------------------------------- the game as the puzzle states it

  /** The number spoken on turn `t`: the starting numbers in order, then 0 after a number spoken for
   * the first time and the distance back to its previous utterance otherwise. */
  function Recited(input: seq<int>, t: int): int
    requires input != [] && t >= 1
    decreases t, 1
  {
    if t <= |input| then input[t - 1]
    else match LastSpoken(input, Recited(input, t - 1), t - 1)
      case None => 0
      case Some(j) => (t - 1) - j
  }

  /** The last turn before `t` on which `x` was spoken. */
  function LastSpoken(input: seq<int>, x: int, t: int): (r: Option<int>)
    requires input != [] && t >= 1
    ensures r.Some? ==> 1 <= r.value < t
    decreases t, 0
  {
    if t == 1 then None
    else if Recited(input, t - 1) == x then Some(t - 1)
    else LastSpoken(input, x, t - 1)
  }

  /** `LastSpoken` finds the latest earlier utterance, and None means there was none. */
  lemma {:induction false} LastSpokenIsLast(input: seq<int>, x: int, t: int)
    requires input != [] && t >= 1
    ensures LastSpoken(input, x, t).Some? ==> Recited(input, LastSpoken(input, x, t).value) == x
    ensures LastSpoken(input, x, t).Some? ==>
      forall j :: LastSpoken(input, x, t).value < j < t ==> Recited(input, j) != x
    ensures LastSpoken(input, x, t).None? <==> forall j :: 1 <= j < t ==> Recited(input, j) != x
    decreases t
  {
    if t > 1 && Recited(input, t - 1) != x {
      LastSpokenIsLast(input, x, t - 1);
    }
  }

  predicate Distinct(input: seq<int>) {
    forall i, j :: 0 <= i < j < |input| ==> input[i] != input[j]
  }

  /** The table after `t` turns holds, for every number spoken so far, the turn on which it was last
   * spoken and the one before, and `n` is the number spoken on turn `t`. */
  ghost predicate Tracks(input: seq<int>, t: nat, g: Game)
    requires input != []
  {
    (t >= 1 ==> g.n == Some(Recited(input, t))) &&
    (forall k :: k in g.ages <==> LastSpoken(input, k, t + 1).Some?) &&
    (forall k :: k in g.ages ==>
      g.ages[k].last == LastSpoken(input, k, t + 1).value &&
      g.ages[k].prev == LastSpoken(input, k, g.ages[k].last))
  }

  /** With distinct starting numbers, the table tracks the game as the puzzle states it. */
  lemma {:induction false} PlayTracks(input: seq<int>, t: nat)
    requires input != [] && Distinct(input)
    ensures Play(input, t).Ok? && Tracks(input, t, Play(input, t).value)
  {
    if t > 0 {
      PlayTracks(input, t - 1);
      var g := Play(input, t - 1).value;
      if t <= |input| {
        TrackStart(input, t, g);
      } else {
        TrackReply(input, t, g);
      }
    }
  }

  /** A turn that speaks a starting number keeps the table tracking. */
  lemma TrackStart(input: seq<int>, t: nat, g: Game)
    requires input != [] && Distinct(input) && 1 <= t <= |input|
    requires Play(input, t - 1) == Ok(g) && Tracks(input, t - 1, g)
    ensures Play(input, t).Ok? && Tracks(input, t, Play(input, t).value)
  {
    var m := input[t - 1];
    LastSpokenIsLast(input, m, t);
    forall j | 1 <= j < t ensures Recited(input, j) != m {
      assert Recited(input, j) == input[j - 1];
    }
    assert m !in g.ages;
    var ages := g.ages[m := Age(None, t)];
    assert Play(input, t) == Ok(Game(Some(m), ages));
    assert Recited(input, t) == m;
    forall k ensures LastSpoken(input, k, t + 1) == if k == m then Some(t) else LastSpoken(input, k, t) {
    }
  }

  /** A turn after the starting numbers keeps the table tracking. */
  lemma TrackReply(input: seq<int>, t: nat, g: Game)
    requires input != [] && |input| < t
    requires Play(input, t - 1) == Ok(g) && Tracks(input, t - 1, g)
    ensures Play(input, t).Ok? && Tracks(input, t, Play(input, t).value)
  {
    var m := Recited(input, t - 1);
    assert g.n == Some(m);
    assert LastSpoken(input, m, t) == Some(t - 1);
    assert m in g.ages && g.ages[m].last == t - 1;
    var (said, ages) := Iterate(m, g.ages, t);
    assert Play(input, t) == Ok(Game(Some(said), ages));
    assert Recited(input, t) == said;
    forall k ensures LastSpoken(input, k, t + 1) == if k == said then Some(t) else LastSpoken(input, k, t) {
    }
  }

  /** With distinct starting numbers, `memory_game` returns the number the puzzle speaks on turn
   * `max_turns`. */
  lemma GameMatchesRecitation(input: seq<int>, maxTurns: int)
    requires input != [] && Distinct(input) && maxTurns >= 1
    ensures GameResult(input, maxTurns) == Ok(Recited(input, maxTurns))
  {
    PlayTracks(input, maxTurns);
  }

  /** With distinct starting numbers, turns 1 to len(input) speak the starting numbers. */
  lemma StartingNumbers(input: seq<int>, t: int)
    requires Distinct(input) && 1 <= t <= |input|
    ensures GameResult(input, t) == Ok(input[t - 1])
  {
    GameMatchesRecitation(input, t);
  }

  // ---------------------------------------------------------------- the test

  /** The first ten numbers spoken from 0, 3, 6. */
  lemma SampleRecited(input: seq<int>)
    requires input == [0, 3, 6]
    ensures Recited(input, 4) == 0 && Recited(input, 5) == 3 && Recited(input, 6) == 3
    ensures Recited(input, 7) == 1 && Recited(input, 8) == 0 && Recited(input, 9) == 4
    ensures Recited(input, 10) == 0
  {
    assert Recited(input, 1) == 0 && Recited(input, 2) == 3 && Recited(input, 3) == 6;
    assert LastSpoken(input, 6, 3) == None;
    assert Recited(input, 4) == 0;
    assert LastSpoken(input, 0, 4) == Some(1);
    assert Recited(input, 5) == 3;
    assert LastSpoken(input, 3, 5) == Some(2);
    assert Recited(input, 6) == 3;
    assert LastSpoken(input, 3, 6) == Some(5);
    assert Recited(input, 7) == 1;
    assert LastSpoken(input, 1, 7) == None;
    assert Recited(input, 8) == 0;
    assert LastSpoken(input, 0, 8) == Some(4);
    assert Recited(input, 9) == 4;
    assert LastSpoken(input, 4, 9) == None;
  }

  /** `memory_game([0, 3, 6], i + 1)` for the first ten turns. */
  lemma SampleGame(input: seq<int>, expected: seq<int>)
    requires input == [0, 3, 6] && expected == [0, 3, 6, 0, 3, 3, 1, 0, 4, 0]
    ensures forall i :: 0 <= i < |expected| ==> GameResult(input, i + 1) == Ok(expected[i])
  {
    SampleRecited(input);
    forall i | 0 <= i < |expected| ensures GameResult(input, i + 1) == Ok(expected[i]) {
      GameMatchesRecitation(input, i + 1);
    }
  }
}
