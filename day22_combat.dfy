/**
 * Day 22, Crab Combat: two players' decks of numbered cards. Each round both
 * players draw their top card; the holder of the higher card puts both cards
 * at the bottom of their deck, their own first. The recursive variant plays a
 * sub-game on copies of the top cards when both players hold enough cards,
 * and ends a game won by player 0 as soon as a configuration repeats.
 *
 * The two deques the script mutates with `popleft`/`append` are the fields
 * of a `Decks` object; each operation is specified by a function over the
 * decks' contents. The loops of the script that need not end carry a fuel
 * bound: running out of fuel is the outcome `None`.
 */
module Combat {
  import opened Base
  import Py

  type Deck = seq<int>

  // ---------------------------------------------------------------- parse_input

  /** A deck's `(cards, index)` read so far, with more cards `deck` in front. */
  function Prepend(deck: Deck, r: Result<(Deck, nat)>): Result<(Deck, nat)> {
    match r
    case Err(e) => Err(e)
    case Ok((d, j)) => Ok((deck + d, j))
  }

  /**
   * The inner loop of `parse_input`: card lines from index `i` up to a
   * whitespace-only line, which is consumed, or to the end of the file.
   * The result holds the cards and the index of the next unread line.
   */
  function ReadDeck(lines: seq<string>, i: nat): (r: Result<(Deck, nat)>)
    requires i <= |lines|
    ensures r.Ok? ==> i <= r.value.1 <= |lines|
    ensures r.Err? ==> r.msg == "ValueError"
    decreases |lines| - i
  {
    if i == |lines| then Ok(([], i))
    else if Py.IsSpace(lines[i]) then Ok(([], i + 1))
    else
      match Py.IntOfLine(lines[i])
      case None => Err("ValueError")
      case Some(n) => Prepend([n], ReadDeck(lines, i + 1))
  }

  /** `parse_input`: a header line, which is skipped, then the cards, once per player. */
  function ParsedDecks(lines: seq<string>): Result<(Deck, Deck)> {
    if lines == [] then Err("StopIteration")
    else
      var p :- ReadDeck(lines, 1);
      if p.1 == |lines| then Err("StopIteration")
      else
        var q :- ReadDeck(lines, p.1 + 1);
        Ok((p.0, q.0))
  }

  lemma PrependTwice(a: Deck, b: Deck, r: Result<(Deck, nat)>)
    ensures Prepend(a, Prepend(b, r)) == Prepend(a + b, r)
  {
    match r
    case Err(e) =>
    case Ok((d, j)) =>
      assert a + (b + d) == (a + b) + d;
  }

  /** The `for line in f` loop, appending each card to the deck. */
  method ReadDeckLines(lines: seq<string>, start: nat) returns (r: Result<(Deck, nat)>)
    requires start <= |lines|
    ensures r == ReadDeck(lines, start)
  {
    var deck: Deck := [];
    var i := start;
    assert Prepend(deck, ReadDeck(lines, i)) == ReadDeck(lines, i) by {
      match ReadDeck(lines, i)
      case Err(_) =>
      case Ok((d, j)) => assert [] + d == d;
    }
    while i < |lines|
      invariant start <= i <= |lines|
      invariant ReadDeck(lines, start) == Prepend(deck, ReadDeck(lines, i))
      decreases |lines| - i
    {
      if Py.IsSpace(lines[i]) {
        assert ReadDeck(lines, i) == Ok(([], i + 1));
        assert deck + [] == deck;
        return Ok((deck, i + 1));
      }
      var n := Py.IntOfLine(lines[i]);
      if n.None? {
        assert ReadDeck(lines, i) == Err("ValueError");
        return Err("ValueError");
      }
      PrependTwice(deck, [n.value], ReadDeck(lines, i + 1));
      deck := deck + [n.value];
      i := i + 1;
    }
    assert ReadDeck(lines, i) == Ok(([], i));
    assert deck + [] == deck;
    return Ok((deck, i));
  }

  method ParseInput(lines: seq<string>) returns (r: Result<(Deck, Deck)>)
    ensures r == ParsedDecks(lines)
  {
    if lines == [] {
      return Err("StopIteration");
    }
    var p := ReadDeckLines(lines, 1);
    if p.Err? {
      return Err(p.msg);
    }
    if p.value.1 == |lines| {
      return Err("StopIteration");
    }
    var q := ReadDeckLines(lines, p.value.1 + 1);
    if q.Err? {
      return Err(q.msg);
    }
    return Ok((p.value.0, q.value.0));
  }

  /** A card as the input file writes it: its decimal digits, after a minus sign if negative. */
  function CardText(n: int): (s: string)
    ensures s != [] && Py.IsDigit(s[|s| - 1]) && (Py.IsDigit(s[0]) || s[0] == '-')
  {
    var t := Py.NatToString(if n < 0 then -n else n);
    assert Py.IsDigit(t[0]) && Py.IsDigit(t[|t| - 1]);
    if n < 0 then "-" + t else t
  }

  function CardLine(n: int): string {
    CardText(n) + "\n"
  }

  function CardLines(deck: Deck): (r: seq<string>)
    ensures |r| == |deck|
    ensures forall k :: 0 <= k < |deck| ==> r[k] == CardLine(deck[k])
  {
    if deck == [] then [] else [CardLine(deck[0])] + CardLines(deck[1..])
  }

  /** The input file: each player's header, their cards, and a blank line between the two. */
  function DeckFile(h0: string, d0: Deck, h1: string, d1: Deck): seq<string> {
    [h0] + CardLines(d0) + ["\n", h1] + CardLines(d1)
  }

  lemma CardTextReads(n: int)
    ensures Py.ParseInt(CardText(n)) == Some(n)
  {
    if n < 0 {
      var t := Py.NatToString(-n);
      assert CardText(n)[1..] == t;
    } else {
      Py.ParseNatToString(n);
    }
  }

  lemma CardLineReads(n: int)
    ensures Py.IntOfLine(CardLine(n)) == Some(n)
    ensures !Py.IsSpace(CardLine(n))
  {
    var s := CardText(n);
    Py.RStripNewline(s);
    assert Py.LStrip(s) == s;
    CardTextReads(n);
    assert CardLine(n)[0] == s[0];
  }

  /** Whether the lines from `i` on are the card lines of `deck`, then a blank line or the end. */
  predicate CardsAt(lines: seq<string>, i: nat, deck: Deck) {
    && i + |deck| <= |lines|
    && (forall k :: 0 <= k < |deck| ==> lines[i + k] == CardLine(deck[k]))
    && (i + |deck| == |lines| || Py.IsSpace(lines[i + |deck|]))
  }

  lemma CardsAtNext(lines: seq<string>, i: nat, deck: Deck)
    requires CardsAt(lines, i, deck) && deck != []
    ensures lines[i] == CardLine(deck[0]) && CardsAt(lines, i + 1, deck[1..])
  {
    assert lines[i + 0] == CardLine(deck[0]);
    forall k | 0 <= k < |deck| - 1
      ensures lines[i + 1 + k] == CardLine(deck[1..][k])
    {
      assert lines[i + (k + 1)] == CardLine(deck[k + 1]);
    }
  }

  lemma ReadCardLine(lines: seq<string>, i: nat, c: int)
    requires i < |lines| && lines[i] == CardLine(c)
    ensures ReadDeck(lines, i) == Prepend([c], ReadDeck(lines, i + 1))
  {
    CardLineReads(c);
  }

  /** The card lines of a deck read back as the deck, stopping at the blank line or the end. */
  lemma {:induction false} ReadCards(lines: seq<string>, i: nat, deck: Deck)
    requires CardsAt(lines, i, deck)
    ensures var r := ReadDeck(lines, i);
      r.Ok? && r.value.0 == deck && r.value.1 == i + |deck| + (if i + |deck| == |lines| then 0 else 1)
    decreases |deck|
  {
    if deck != [] {
      CardsAtNext(lines, i, deck);
      ReadCards(lines, i + 1, deck[1..]);
      ReadCardLine(lines, i, deck[0]);
      HeadTail(deck);
    }
  }

  /** Where the parts of `a + b + c + d` sit. */
  lemma FourParts<T>(a: seq<T>, b: seq<T>, c: seq<T>, d: seq<T>)
    ensures |a + b + c + d| == |a| + |b| + |c| + |d|
    ensures forall k :: 0 <= k < |b| ==> (a + b + c + d)[|a| + k] == b[k]
    ensures forall k :: 0 <= k < |c| ==> (a + b + c + d)[|a| + |b| + k] == c[k]
    ensures forall k :: 0 <= k < |d| ==> (a + b + c + d)[|a| + |b| + |c| + k] == d[k]
  {
  }

  lemma DeckFileCards(h0: string, d0: Deck, h1: string, d1: Deck)
    ensures var lines := DeckFile(h0, d0, h1, d1);
      CardsAt(lines, 1, d0) && CardsAt(lines, |d0| + 3, d1) && |lines| == |d0| + 3 + |d1|
  {
    var lines := DeckFile(h0, d0, h1, d1);
    var c0, mid, c1 := CardLines(d0), ["\n", h1], CardLines(d1);
    FourParts([h0], c0, mid, c1);
    assert lines[1 + |d0| + 0] == "\n";
    assert Py.IsSpace("\n");
    assert forall k :: 0 <= k < |d0| ==> lines[1 + k] == c0[k];
    assert forall k :: 0 <= k < |d1| ==> lines[|d0| + 3 + k] == c1[k];
  }

  /** Reading a written input file gives back both decks. */
  lemma ParseDeckFile(h0: string, d0: Deck, h1: string, d1: Deck)
    ensures var r := ParsedDecks(DeckFile(h0, d0, h1, d1));
      r.Ok? && r.value.0 == d0 && r.value.1 == d1
  {
    var lines := DeckFile(h0, d0, h1, d1);
    DeckFileCards(h0, d0, h1, d1);
    ReadCards(lines, 1, d0);
    ReadCards(lines, |d0| + 3, d1);
  }

  // ---------------------------------------------------------------- play_round

  /** The end of a round: the winner puts their own card, then the other, at the bottom. */
  function Award(winner: int, c0: int, c1: int, rest0: Deck, rest1: Deck): (Deck, Deck) {
    if winner == 0 then (rest0 + [c0, c1], rest1) else (rest0, rest1 + [c1, c0])
  }

  /** Awarding the two cards to either player keeps every card. */
  lemma AwardKeepsCards(winner: int, c0: int, c1: int, rest0: Deck, rest1: Deck)
    ensures var (a, b) := Award(winner, c0, c1, rest0, rest1);
      multiset(a) + multiset(b) == multiset(rest0) + multiset(rest1) + multiset{c0, c1}
      && |a| + |b| == |rest0| + |rest1| + 2
  {
  }

  /**
   * `play_round`: both top cards are drawn (an empty deque raises IndexError),
   * they must differ, and the higher card wins.
   */
  function Round(d0: Deck, d1: Deck): (r: Result<(Deck, Deck)>) {
    if d0 == [] || d1 == [] then Err("IndexError")
    else if d0[0] == d1[0] then Err("AssertionError")
    else Ok(Award(if d0[0] > d1[0] then 0 else 1, d0[0], d1[0], d0[1..], d1[1..]))
  }

  /** Drawing the top card splits a deck's cards into that card and the rest. */
  lemma DrawKeepsCards(d: Deck)
    requires d != []
    ensures multiset(d) == multiset(d[1..]) + multiset{d[0]}
  {
    assert d == [d[0]] + d[1..];
  }

  /** A round fails exactly when a deck is empty or the two drawn cards are equal. */
  lemma RoundFails(d0: Deck, d1: Deck)
    ensures Round(d0, d1).Err? <==> d0 == [] || d1 == [] || d0[0] == d1[0]
    ensures Round(d0, d1).Err? ==>
      Round(d0, d1).msg == (if d0 == [] || d1 == [] then "IndexError" else "AssertionError")
  {
  }

  /** A round neither creates nor loses a card. */
  lemma RoundKeepsCards(d0: Deck, d1: Deck)
    requires Round(d0, d1).Ok?
    ensures var (a, b) := Round(d0, d1).value;
      multiset(a) + multiset(b) == multiset(d0) + multiset(d1) && |a| + |b| == |d0| + |d1|
  {
    AwardKeepsCards(if d0[0] > d1[0] then 0 else 1, d0[0], d1[0], d0[1..], d1[1..]);
    DrawKeepsCards(d0);
    DrawKeepsCards(d1);
  }

  /** The owner of the higher card gains both cards at the bottom, their own first; the other deck loses its top. */
  lemma RoundHigherTakes(d0: Deck, d1: Deck)
    requires d0 != [] && d1 != [] && d0[0] != d1[0]
    ensures var (a, b) := Round(d0, d1).value;
      if d0[0] > d1[0] then a == d0[1..] + [d0[0], d1[0]] && b == d1[1..]
      else a == d0[1..] && b == d1[1..] + [d1[0], d0[0]]
  {
  }

  /** The round trace of the script's test on its sample decks. */
  lemma SampleRounds()
    ensures Round([9, 2, 6, 3, 1], [5, 8, 4, 7, 10]) == Ok(([2, 6, 3, 1, 9, 5], [8, 4, 7, 10]))
    ensures Round([2, 6, 3, 1, 9, 5], [8, 4, 7, 10]) == Ok(([6, 3, 1, 9, 5], [4, 7, 10, 8, 2]))
  {
    assert [9, 2, 6, 3, 1][1..] + [9, 5] == [2, 6, 3, 1, 9, 5];
    assert [8, 4, 7, 10][1..] + [8, 2] == [4, 7, 10, 8, 2];
  }

  // ---------------------------------------------------------------- get_score

  /** `get_score`: the sum of each card times its position counted from the bottom. */
  function Score(deck: Deck): int {
    Py.Sum(seq(|deck|, i requires 0 <= i < |deck| => (|deck| - i) * deck[i]))
  }

  /** An independent reading of the score: the sums of all the deck's prefixes. */
  function PrefixSums(deck: Deck): int {
    if deck == [] then 0 else PrefixSums(deck[..|deck| - 1]) + Py.Sum(deck)
  }

  lemma ScoreCons(c: int, deck: Deck)
    ensures Score([c] + deck) == (|deck| + 1) * c + Score(deck)
  {
    var d := [c] + deck;
    var s := seq(|d|, i requires 0 <= i < |d| => (|d| - i) * d[i]);
    assert s[1..] == seq(|deck|, i requires 0 <= i < |deck| => (|deck| - i) * deck[i]);
  }

  /** A card put at the bottom adds itself and one more of every card above it. */
  lemma {:induction false} ScoreSnoc(deck: Deck, x: int)
    ensures Score(deck + [x]) == Score(deck) + Py.Sum(deck + [x])
    decreases |deck|
  {
    if deck == [] {
      assert deck + [x] == [x] + deck;
      ScoreCons(x, deck);
      var none := seq(|deck|, i requires 0 <= i < |deck| => (|deck| - i) * deck[i]);
      assert none == [];
      assert Py.Sum([x]) == x + Py.Sum([]);
    } else {
      var c, e := deck[0], deck[1..];
      assert deck == [c] + e;
      assert deck + [x] == [c] + (e + [x]);
      ScoreCons(c, e + [x]);
      ScoreCons(c, e);
      ScoreSnoc(e, x);
      assert Py.Sum(deck + [x]) == c + Py.Sum(e + [x]);
    }
  }

  lemma {:induction false} ScoreIsPrefixSums(deck: Deck)
    ensures Score(deck) == PrefixSums(deck)
    decreases |deck|
  {
    if deck != [] {
      var p, x := deck[..|deck| - 1], deck[|deck| - 1];
      assert deck == p + [x];
      ScoreSnoc(p, x);
      ScoreIsPrefixSums(p);
    }
  }

  /** For cards that are not negative nor is the score, and it is zero only for a deck of zeros. */
  lemma {:induction false} ScoreNatural(deck: seq<nat>)
    ensures Score(deck) >= 0
    ensures Score(deck) == 0 <==> forall i :: 0 <= i < |deck| ==> deck[i] == 0
    decreases |deck|
  {
    if deck != [] {
      ScoreCons(deck[0], deck[1..]);
      assert [deck[0]] + deck[1..] == deck;
      ScoreNatural(deck[1..]);
      assert forall i :: 1 <= i < |deck| ==> deck[i] == deck[1..][i - 1];
    }
  }

  // ---------------------------------------------------------------- play_game

  /**
   * `play_game`'s loop: rounds while both decks hold cards. It need not end,
   * so it is bounded by `fuel` rounds; `None` means the fuel ran out.
   */
  function Play(d0: Deck, d1: Deck, fuel: nat): Option<Result<(Deck, Deck)>>
    decreases fuel
  {
    if d0 == [] || d1 == [] then Some(Ok((d0, d1)))
    else if fuel == 0 then None
    else
      match Round(d0, d1)
      case Err(e) => Some(Err(e))
      case Ok((a, b)) => Play(a, b, fuel - 1)
  }

  /** `play_game`: the score of the deck that is not empty. */
  function GameScore(d0: Deck, d1: Deck, fuel: nat): Option<Result<int>> {
    match Play(d0, d1, fuel)
    case None => None
    case Some(Err(e)) => Some(Err(e))
    case Some(Ok((a, b))) => Some(Ok(Score(if a != [] then a else b)))
  }

  /** A finished game leaves one deck empty and all the cards in the other. */
  lemma {:induction false} PlayEnds(d0: Deck, d1: Deck, fuel: nat)
    requires Play(d0, d1, fuel).Some? && Play(d0, d1, fuel).value.Ok?
    ensures var (a, b) := Play(d0, d1, fuel).value.value;
      (a == [] || b == []) && multiset(a) + multiset(b) == multiset(d0) + multiset(d1)
    decreases fuel
  {
    if d0 != [] && d1 != [] {
      RoundKeepsCards(d0, d1);
      var (a, b) := Round(d0, d1).value;
      PlayEnds(a, b, fuel - 1);
    }
  }

  /** The game's score is the score of a deck holding every card of both starting decks. */
  lemma GameScoreAllCards(d0: Deck, d1: Deck, fuel: nat)
    requires GameScore(d0, d1, fuel).Some? && GameScore(d0, d1, fuel).value.Ok?
    ensures exists w: Deck ::
      multiset(w) == multiset(d0) + multiset(d1) && GameScore(d0, d1, fuel).value.value == Score(w)
  {
    PlayEnds(d0, d1, fuel);
    var (a, b) := Play(d0, d1, fuel).value.value;
    var w := if a != [] then a else b;
    assert multiset(w) == multiset(a) + multiset(b);
  }

  /** More fuel does not change the outcome of a game that ends within the fuel. */
  lemma {:induction false} PlayMoreFuel(d0: Deck, d1: Deck, fuel: nat, more: nat)
    requires Play(d0, d1, fuel).Some? && fuel <= more
    ensures Play(d0, d1, more) == Play(d0, d1, fuel)
    decreases fuel
  {
    if d0 != [] && d1 != [] {
      match Round(d0, d1)
      case Err(e) =>
        assert Play(d0, d1, more) == Some(Err(e));
      case Ok((a, b)) =>
        PlayStep(d0, d1, fuel, a, b);
        PlayStep(d0, d1, more, a, b);
        PlayMoreFuel(a, b, fuel - 1, more - 1);
    }
  }

  lemma PlayStep(d0: Deck, d1: Deck, fuel: nat, a: Deck, b: Deck)
    requires d0 != [] && d1 != [] && fuel > 0 && Round(d0, d1) == Ok((a, b))
    ensures Play(d0, d1, fuel) == Play(a, b, fuel - 1)
  {
  }

  // ---------------------------------------------------------------- the recursive game

  /** `copy_deck`: the first `n` cards; `islice` refuses a negative stop with ValueError. */
  function CopyDeck(deck: Deck, n: int): (r: Result<Deck>)
    ensures r.Ok? <==> n >= 0
    ensures r.Ok? ==> r.value <= deck && |r.value| == (if n < |deck| then n else |deck|)
  {
    if n < 0 then Err("ValueError") else if n < |deck| then Ok(deck[..n]) else Ok(deck)
  }

  /** Copying at most the whole deck is taking that prefix. */
  lemma CopyAll(deck: Deck, n: int)
    requires 0 <= n <= |deck|
    ensures CopyDeck(deck, n) == Ok(deck[..n])
  {
    assert deck[..|deck|] == deck;
  }

  /** The end of a recursive game: the winner and both final decks. */
  datatype End = End(winner: int, deck0: Deck, deck1: Deck)

  /**
   * `play_game_recursive`'s loop from configuration `(d0, d1)` with the
   * configurations `seen` already played: a repeat ends the game with
   * player 0 as winner; otherwise it ends when a deck is empty.
   */
  function RecGame(d0: Deck, d1: Deck, seen: set<(Deck, Deck)>, fuel: nat): (r: Option<Result<End>>)
    ensures r.Some? && r.value.Ok? ==> var e := r.value.value;
      && (e.winner == 0 || e.winner == 1)
      && (e.winner == 0 <==> e.deck0 != [])
    decreases fuel, 0
  {
    if d0 == [] || d1 == [] then Some(Ok(End(if d0 != [] then 0 else 1, d0, d1)))
    else if (d0, d1) in seen then Some(Ok(End(0, d0, d1)))
    else if fuel == 0 then None
    else
      match RecRound(d0, d1, fuel - 1)
      case None => None
      case Some(Err(e)) => Some(Err(e))
      case Some(Ok((a, b))) => RecGame(a, b, seen + {(d0, d1)}, fuel - 1)
  }

  /**
   * `play_round_recursive`: when both players hold at least as many cards as
   * they drew, the winner is that of a sub-game on copies of those top cards;
   * otherwise it is the higher card.
   */
  function RecRound(d0: Deck, d1: Deck, fuel: nat): (r: Option<Result<(Deck, Deck)>>)
    ensures r.Some? && r.value.Ok? ==> var (a, b) := r.value.value;
      d0 != [] && d1 != [] &&
      ((a == d0[1..] + [d0[0], d1[0]] && b == d1[1..]) || (a == d0[1..] && b == d1[1..] + [d1[0], d0[0]]))
    decreases fuel, 1
  {
    if d0 == [] || d1 == [] then Some(Err("IndexError"))
    else
      var c0, c1, rest0, rest1 := d0[0], d1[0], d0[1..], d1[1..];
      if c0 == c1 then Some(Err("AssertionError"))
      else if |rest0| >= c0 && |rest1| >= c1 then
        match CopyDeck(rest0, c0)
        case Err(e) => Some(Err(e))
        case Ok(s0) =>
          match CopyDeck(rest1, c1)
          case Err(e) => Some(Err(e))
          case Ok(s1) =>
            match RecGame(s0, s1, {}, fuel)
            case None => None
            case Some(Err(e)) => Some(Err(e))
            case Some(Ok(e)) => Some(Ok(Award(e.winner, c0, c1, rest0, rest1)))
      else Some(Ok(Award(if c0 > c1 then 0 else 1, c0, c1, rest0, rest1)))
  }

  /** `play_game_recursive`'s result: the winner and the score of the winner's deck. */
  function Reported(g: Option<Result<End>>): Option<Result<(int, int)>> {
    match g
    case None => None
    case Some(Err(e)) => Some(Err(e))
    case Some(Ok(e)) => Some(Ok((e.winner, Score(if e.winner == 0 then e.deck0 else e.deck1))))
  }

  /** A configuration seen before ends the game at once, won by player 0 with their current deck. */
  lemma RepeatWins(d0: Deck, d1: Deck, seen: set<(Deck, Deck)>, fuel: nat)
    requires d0 != [] && d1 != [] && (d0, d1) in seen
    ensures Reported(RecGame(d0, d1, seen, fuel)) == Some(Ok((0, Score(d0))))
  {
  }

  /** Without enough cards for a sub-game, a recursive round is a plain round. */
  lemma RecRoundPlain(d0: Deck, d1: Deck, fuel: nat)
    requires d0 != [] && d1 != []
    requires |d0| - 1 < d0[0] || |d1| - 1 < d1[0]
    ensures RecRound(d0, d1, fuel) == Some(Round(d0, d1))
  {
  }

  /** With enough cards, the round's winner is the winner of the sub-game on the copied top cards. */
  lemma RecRoundSubGame(d0: Deck, d1: Deck, fuel: nat)
    requires d0 != [] && d1 != [] && d0[0] != d1[0]
    requires 0 <= d0[0] <= |d0| - 1 && 0 <= d1[0] <= |d1| - 1
    ensures var sub := RecGame(d0[1..][..d0[0]], d1[1..][..d1[0]], {}, fuel);
      sub.Some? && sub.value.Ok? ==>
        RecRound(d0, d1, fuel) == Some(Ok(Award(sub.value.value.winner, d0[0], d1[0], d0[1..], d1[1..])))
  {
    CopyAll(d0[1..], d0[0]);
    CopyAll(d1[1..], d1[0]);
  }

  /** A negative card drawn where a sub-game would start makes `islice` raise ValueError. */
  lemma RecRoundNegative(d0: Deck, d1: Deck, fuel: nat)
    requires d0 != [] && d1 != [] && d0[0] != d1[0]
    requires d0[0] < 0 || d1[0] < 0
    requires |d0| - 1 >= d0[0] && |d1| - 1 >= d1[0]
    ensures RecRound(d0, d1, fuel) == Some(Err("ValueError"))
  {
  }

  /** A recursive round neither creates nor loses a card. */
  lemma RecRoundKeepsCards(d0: Deck, d1: Deck, fuel: nat)
    requires RecRound(d0, d1, fuel).Some? && RecRound(d0, d1, fuel).value.Ok?
    ensures var (a, b) := RecRound(d0, d1, fuel).value.value;
      multiset(a) + multiset(b) == multiset(d0) + multiset(d1)
  {
    var (a, b) := RecRound(d0, d1, fuel).value.value;
    if a == d0[1..] + [d0[0], d1[0]] && b == d1[1..] {
      AwardKeepsCards(0, d0[0], d1[0], d0[1..], d1[1..]);
    } else {
      AwardKeepsCards(1, d0[0], d1[0], d0[1..], d1[1..]);
    }
    DrawKeepsCards(d0);
    DrawKeepsCards(d1);
  }

  /** A recursive game neither creates nor loses a card. */
  lemma {:induction false} RecGameKeepsCards(d0: Deck, d1: Deck, seen: set<(Deck, Deck)>, fuel: nat)
    requires RecGame(d0, d1, seen, fuel).Some? && RecGame(d0, d1, seen, fuel).value.Ok?
    ensures var e := RecGame(d0, d1, seen, fuel).value.value;
      multiset(e.deck0) + multiset(e.deck1) == multiset(d0) + multiset(d1)
    decreases fuel
  {
    if d0 != [] && d1 != [] && (d0, d1) !in seen {
      var (a, b) := RecRound(d0, d1, fuel - 1).value.value;
      RecRoundKeepsCards(d0, d1, fuel - 1);
      RecGameStep(d0, d1, seen, fuel, a, b);
      RecGameKeepsCards(a, b, seen + {(d0, d1)}, fuel - 1);
    }
  }

  /** More fuel does not change the outcome of a recursive game that ends within the fuel. */
  lemma {:induction false} RecGameMoreFuel(d0: Deck, d1: Deck, seen: set<(Deck, Deck)>, fuel: nat, more: nat)
    requires RecGame(d0, d1, seen, fuel).Some? && fuel <= more
    ensures RecGame(d0, d1, seen, more) == RecGame(d0, d1, seen, fuel)
    decreases fuel, 0
  {
    if d0 != [] && d1 != [] && (d0, d1) !in seen {
      RecRoundMoreFuel(d0, d1, fuel - 1, more - 1);
      match RecRound(d0, d1, fuel - 1)
      case Some(Ok((a, b))) =>
        RecGameMoreFuel(a, b, seen + {(d0, d1)}, fuel - 1, more - 1);
      case Some(Err(_)) =>
    }
  }

  lemma {:induction false} RecRoundMoreFuel(d0: Deck, d1: Deck, fuel: nat, more: nat)
    requires RecRound(d0, d1, fuel).Some? && fuel <= more
    ensures RecRound(d0, d1, more) == RecRound(d0, d1, fuel)
    decreases fuel, 1
  {
    if d0 != [] && d1 != [] && d0[0] != d1[0] && |d0| - 1 >= d0[0] && |d1| - 1 >= d1[0]
      && d0[0] >= 0 && d1[0] >= 0
    {
      var s0, s1 := CopyDeck(d0[1..], d0[0]).value, CopyDeck(d1[1..], d1[0]).value;
      RecGameMoreFuel(s0, s1, {}, fuel, more);
    }
  }

  lemma RecGameStep(d0: Deck, d1: Deck, seen: set<(Deck, Deck)>, fuel: nat, a: Deck, b: Deck)
    requires d0 != [] && d1 != [] && (d0, d1) !in seen && fuel > 0
    requires RecRound(d0, d1, fuel - 1) == Some(Ok((a, b)))
    ensures RecGame(d0, d1, seen, fuel) == RecGame(a, b, seen + {(d0, d1)}, fuel - 1)
  {
  }

  // ---------------------------------------------------------------- the decks as the script mutates them

  class Decks {
    var deck0: Deck
    var deck1: Deck

    constructor (d0: Deck, d1: Deck)
      ensures deck0 == d0 && deck1 == d1
    {
      deck0, deck1 := d0, d1;
    }

    /**
     * `play_round`. When it raises, the decks are as `popleft` left them:
     * player 0's top card is gone if there was one, and player 1's if
     * player 0's was there to draw.
     */
    method PlayRound() returns (r: Result<()>)
      modifies this
      ensures r.Ok? <==> Round(old(deck0), old(deck1)).Ok?
      ensures r.Ok? ==> (deck0, deck1) == Round(old(deck0), old(deck1)).value
      ensures r.Err? ==> (
        && r.msg == Round(old(deck0), old(deck1)).msg
        && deck0 == (if old(deck0) == [] then [] else old(deck0)[1..])
        && deck1 == (if old(deck0) == [] || old(deck1) == [] then old(deck1) else old(deck1)[1..]))
    {
      if deck0 == [] {
        return Err("IndexError");
      }
      var c0 := deck0[0];
      deck0 := deck0[1..];
      if deck1 == [] {
        return Err("IndexError");
      }
      var c1 := deck1[0];
      deck1 := deck1[1..];
      if c0 == c1 {
        return Err("AssertionError");
      }
      if c0 > c1 {
        deck0 := deck0 + [c0];
        deck0 := deck0 + [c1];
        assert deck0 == old(deck0)[1..] + [c0, c1];
      } else {
        deck1 := deck1 + [c1];
        deck1 := deck1 + [c0];
        assert deck1 == old(deck1)[1..] + [c1, c0];
      }
      return Ok(());
    }

    /** `play_game`, for at most `fuel` rounds. */
    method PlayGame(fuel: nat) returns (r: Option<Result<int>>)
      modifies this
      ensures r == GameScore(old(deck0), old(deck1), fuel)
      ensures r.Some? && r.value.Ok? ==> Play(old(deck0), old(deck1), fuel) == Some(Ok((deck0, deck1)))
    {
      var f: nat := fuel;
      while deck0 != [] && deck1 != []
        invariant f <= fuel
        invariant Play(deck0, deck1, f) == Play(old(deck0), old(deck1), fuel)
        decreases f
      {
        if f == 0 {
          return None;
        }
        ghost var before := (deck0, deck1);
        var res := PlayRound();
        if res.Err? {
          return Some(Err(res.msg));
        }
        PlayStep(before.0, before.1, f, deck0, deck1);
        f := f - 1;
      }
      r := Some(Ok(Score(if deck0 != [] then deck0 else deck1)));
    }

    /**
     * `play_round_recursive`, its sub-game bounded by `fuel` rounds at each
     * level. A sub-game is played on a new `Decks` object, so the fields of
     * this one only lose their top cards and gain the winner's pair.
     */
    method PlayRoundRecursive(fuel: nat) returns (r: Option<Result<()>>)
      modifies this
      ensures var g := RecRound(old(deck0), old(deck1), fuel);
        && (r.None? <==> g.None?)
        && (r.Some? && r.value.Err? <==> g.Some? && g.value.Err?)
        && (r.Some? && r.value.Err? ==> r.value.msg == g.value.msg)
        && (r.Some? && r.value.Ok? ==> g.Some? && g.value.Ok? && g.value.value == (deck0, deck1))
      decreases fuel, 1
    {
      if deck0 == [] {
        return Some(Err("IndexError"));
      }
      var c0 := deck0[0];
      deck0 := deck0[1..];
      if deck1 == [] {
        return Some(Err("IndexError"));
      }
      var c1 := deck1[0];
      deck1 := deck1[1..];
      if c0 == c1 {
        return Some(Err("AssertionError"));
      }
      var winner: int;
      if |deck0| >= c0 && |deck1| >= c1 {
        var s0 := CopyDeck(deck0, c0);
        if s0.Err? {
          return Some(Err(s0.msg));
        }
        var s1 := CopyDeck(deck1, c1);
        if s1.Err? {
          return Some(Err(s1.msg));
        }
        var sub := new Decks(s0.value, s1.value);
        var res := sub.PlayGameRecursive(fuel);
        match res {
          case None =>
            return None;
          case Some(Err(e)) =>
            return Some(Err(e));
          case Some(Ok((w, _))) =>
            winner := w;
        }
      } else {
        winner := if c0 > c1 then 0 else 1;
      }
      if winner == 0 {
        deck0 := deck0 + [c0];
        deck0 := deck0 + [c1];
        assert deck0 == old(deck0)[1..] + [c0, c1];
      } else {
        deck1 := deck1 + [c1];
        deck1 := deck1 + [c0];
        assert deck1 == old(deck1)[1..] + [c1, c0];
      }
      return Some(Ok(()));
    }

    /** `play_game_recursive`, for at most `fuel` rounds at this level. */
    method PlayGameRecursive(fuel: nat) returns (r: Option<Result<(int, int)>>)
      modifies this
      ensures r == Reported(RecGame(old(deck0), old(deck1), {}, fuel))
      ensures var g := RecGame(old(deck0), old(deck1), {}, fuel);
        g.Some? && g.value.Ok? ==> deck0 == g.value.value.deck0 && deck1 == g.value.value.deck1
      decreases fuel, 0
    {
      var seen: set<(Deck, Deck)> := {};
      var winner: Option<int> := None;
      var f: nat := fuel;
      while deck0 != [] && deck1 != []
        invariant f <= fuel
        invariant RecGame(deck0, deck1, seen, f) == RecGame(old(deck0), old(deck1), {}, fuel)
        decreases f
      {
        if (deck0, deck1) in seen {
          winner := Some(0);
          break;
        }
        if f == 0 {
          return None;
        }
        ghost var before, prior := (deck0, deck1), seen;
        seen := seen + {(deck0, deck1)};
        var res := PlayRoundRecursive(f - 1);
        if res.None? {
          return None;
        }
        if res.value.Err? {
          return Some(Err(res.value.msg));
        }
        RecGameStep(before.0, before.1, prior, f, deck0, deck1);
        f := f - 1;
      }
      var w := if winner.Some? then winner.value else if deck0 != [] then 0 else 1;
      r := Some(Ok((w, Score(if w == 0 then deck0 else deck1))));
    }
  }
}
