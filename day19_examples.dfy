/**
 * Day 19 (19/19.py): the unit tests of `message_matches_rule`
 * (19/19.py:106-113), and a rule set on which `update_rules` turns a
 * message that does not match rule 0 into one that does.
 *
 * The test rules match only messages of one length each. Such a rule at
 * the head of a sequence fixes the split point, and the languages of the
 * test rules follow from that, for every message.
 */
module MessagesExamples {
  import opened Base
  import opened Messages

  /** Rule `id` never fails and matches only messages of length `L`. */
  ghost predicate Fixed(rules: Rules, id: int, L: nat) {
    forall w: string :: MatchRule(rules, w, id, {}).Ok? && (MatchRule(rules, w, id, {}).value ==> |w| == L)
  }

  /** A literal rule matches only its own length. */
  lemma LiteralFixed(rules: Rules, id: int)
    requires id in rules && rules[id].Literal?
    ensures Fixed(rules, id, |rules[id].text|)
  {
  }

  /** Past head length `L` the loop finds nothing. */
  lemma {:induction false} NoHeadsLeft(rules: Rules, m: string, sequence: seq<int>, L: nat, i: nat)
    requires |sequence| >= 1 && Fixed(rules, sequence[0], L) && i >= L
    ensures SplitLoop(rules, m, sequence, i) == Ok(false)
    decreases |m| - i
  {
    if i + 1 < |m| && |m| - (i + 1) >= |sequence| - 1 {
      assert !MatchRule(rules, m[..i + 1], sequence[0], {}).value;
      NoHeadsLeft(rules, m, sequence, L, i + 1);
    }
  }

  /** Before head length `L` the loop finds nothing either: only the split at `L` counts. */
  lemma {:induction false} FixedHead(rules: Rules, m: string, sequence: seq<int>, L: nat, i: nat)
    requires |sequence| >= 2 && Fixed(rules, sequence[0], L) && i < L
    ensures SplitLoop(rules, m, sequence, i) ==
      if L >= |m| || |m| - L < |sequence| - 1 || !MatchRule(rules, m[..L], sequence[0], {}).value then Ok(false)
      else MatchSeq(rules, m[L..], sequence[1..], {})
    decreases L - i
  {
    if i + 1 < |m| && |m| - (i + 1) >= |sequence| - 1 {
      if i + 1 < L {
        assert !MatchRule(rules, m[..i + 1], sequence[0], {}).value;
        FixedHead(rules, m, sequence, L, i + 1);
      } else {
        NoHeadsLeft(rules, m, sequence, L, L);
      }
    }
  }

  /** A sequence whose head has a fixed length splits there. */
  lemma ConsFixed(rules: Rules, m: string, sequence: seq<int>, L: nat, visited: set<int>)
    requires |sequence| >= 2 && L >= 1 && Fixed(rules, sequence[0], L)
    ensures MatchSeq(rules, m, sequence, visited) ==
      if L >= |m| || |m| - L < |sequence| - 1 || !MatchRule(rules, m[..L], sequence[0], {}).value then Ok(false)
      else MatchSeq(rules, m[L..], sequence[1..], {})
  {
    FixedHead(rules, m, sequence, L, 0);
  }

  /** A pair of fixed-length rules matches exactly a head of the first one's language and a rest of the second's. */
  lemma PairFixed(rules: Rules, m: string, a: int, b: int, La: nat, Lb: nat, visited: set<int>)
    requires La >= 1 && Lb >= 1 && Fixed(rules, a, La) && Fixed(rules, b, Lb)
    ensures MatchSeq(rules, m, [a, b], visited) ==
      Ok(|m| == La + Lb && MatchRule(rules, m[..La], a, {}).value && MatchRule(rules, m[La..], b, {}).value)
  {
    ConsFixed(rules, m, [a, b], La, visited);
    assert [a, b][1..] == [b];
    if La < |m| {
      var rest := m[La..];
      assert MatchSeq(rules, rest, [b], {}) == MatchRule(rules, rest, b, {});
      assert MatchRule(rules, rest, b, {}).Ok?;
      assert MatchRule(rules, rest, b, {}).value ==> |rest| == Lb;
      assert MatchRule(rules, m[..La], a, {}).Ok?;
    }
  }

  /** A rule of two pairs whose ids all have length `K` has length `2 * K`. */
  lemma PairsFixed(rules: Rules, id: int, a: int, b: int, c: int, d: int, K: nat)
    requires id in rules && rules[id] == Alternatives([[a, b], [c, d]]) && K >= 1
    requires Fixed(rules, a, K) && Fixed(rules, b, K) && Fixed(rules, c, K) && Fixed(rules, d, K)
    ensures Fixed(rules, id, 2 * K)
    ensures forall w: string :: MatchRule(rules, w, id, {}) == Ok(|w| == 2 * K &&
      ((MatchRule(rules, w[..K], a, {}).value && MatchRule(rules, w[K..], b, {}).value) ||
       (MatchRule(rules, w[..K], c, {}).value && MatchRule(rules, w[K..], d, {}).value)))
  {
    forall w: string
      ensures MatchRule(rules, w, id, {}) == Ok(|w| == 2 * K &&
        ((MatchRule(rules, w[..K], a, {}).value && MatchRule(rules, w[K..], b, {}).value) ||
         (MatchRule(rules, w[..K], c, {}).value && MatchRule(rules, w[K..], d, {}).value)))
    {
      PairsMatch(rules, w, id, a, b, c, d, K);
    }
  }

  lemma PairsMatch(rules: Rules, w: string, id: int, a: int, b: int, c: int, d: int, K: nat)
    requires id in rules && rules[id] == Alternatives([[a, b], [c, d]]) && K >= 1
    requires Fixed(rules, a, K) && Fixed(rules, b, K) && Fixed(rules, c, K) && Fixed(rules, d, K)
    ensures MatchRule(rules, w, id, {}) == Ok(|w| == 2 * K &&
      ((MatchRule(rules, w[..K], a, {}).value && MatchRule(rules, w[K..], b, {}).value) ||
       (MatchRule(rules, w[..K], c, {}).value && MatchRule(rules, w[K..], d, {}).value)))
  {
    assert {} + {id} == {id};
    var seqs := [[a, b], [c, d]];
    assert MatchRule(rules, w, id, {}) == MatchAny(rules, w, seqs, {id});
    PairFixed(rules, w, a, b, K, K, {id});
    PairFixed(rules, w, c, d, K, K, {id});
    assert seqs[1..][1..] == [];
    assert MatchAny(rules, w, seqs[1..], {id}) == MatchAny(rules, w, [[c, d]], {id});
  }

  /** A rule of a single sequence matches what the sequence matches. */
  lemma SingleSequence(rules: Rules, w: string, id: int, sequence: seq<int>)
    requires id in rules && rules[id] == Alternatives([sequence])
    ensures MatchRule(rules, w, id, {}) == MatchSeq(rules, w, sequence, {id})
  {
    assert {} + {id} == {id};
    assert [sequence][0] == sequence && [sequence][1..] == [];
    assert MatchRule(rules, w, id, {}) == MatchAny(rules, w, [sequence], {id});
    assert MatchAny(rules, w, [], {id}) == Ok(false);
  }

  /** A two-character message is its head and its rest. */
  lemma TwoChars(w: string, x: char, y: char)
    requires |w| == 2
    ensures (w[..1] == [x] && w[1..] == [y]) <==> w == [x, y]
  {
    assert w == [w[0], w[1]];
  }

  // ---------------------------------------------------------------- test1rules (19/19.py:79-85)

  const Test1: Rules := map[0 := Alternatives([[1, 2]]), 1 := Literal("a"), 2 := Alternatives([[1, 3], [3, 1]]), 3 := Literal("b")]

  lemma Test1Letters()
    ensures Fixed(Test1, 1, 1) && Fixed(Test1, 3, 1)
    ensures forall w: string :: MatchRule(Test1, w, 1, {}) == Ok(w == "a") && MatchRule(Test1, w, 3, {}) == Ok(w == "b")
  {
    LiteralFixed(Test1, 1);
    LiteralFixed(Test1, 3);
  }

  /** Rule 2 of the first test matches `ab` and `ba`. */
  lemma Test1Rule2(w: string)
    ensures Fixed(Test1, 2, 2)
    ensures MatchRule(Test1, w, 2, {}) == Ok(w == "ab" || w == "ba")
  {
    Test1Letters();
    PairsFixed(Test1, 2, 1, 3, 3, 1, 1);
    if |w| == 2 {
      TwoChars(w, 'a', 'b');
      TwoChars(w, 'b', 'a');
    }
  }

  /** Rule 0 of the first test matches exactly `aab` and `aba`. */
  lemma Test1Language(w: string)
    ensures MatchRule(Test1, w, 0, {}) == Ok(w == "aab" || w == "aba")
  {
    Test1Letters();
    Test1Rule2(w);
    SingleSequence(Test1, w, 0, [1, 2]);
    PairFixed(Test1, w, 1, 2, 1, 2, {0});
    if |w| == 3 {
      Test1Rule2(w[1..]);
      assert w == w[..1] + w[1..];
    }
  }

  /** `test1results`: `aab` and `aba` match, `bba`, `babb` and `aabb` do not. */
  lemma Test1Results()
    ensures MatchRule(Test1, "aab", 0, {}) == Ok(true)
    ensures MatchRule(Test1, "aba", 0, {}) == Ok(true)
    ensures MatchRule(Test1, "bba", 0, {}) == Ok(false)
    ensures MatchRule(Test1, "babb", 0, {}) == Ok(false)
    ensures MatchRule(Test1, "aabb", 0, {}) == Ok(false)
  {
    Test1Language("aab");
    Test1Language("aba");
    Test1Language("bba");
    Test1Language("babb");
    Test1Language("aabb");
  }

  // ---------------------------------------------------------------- test2rules (19/19.py:87-95)

  const Test2: Rules := map[
    0 := Alternatives([[4, 1, 5]]),
    1 := Alternatives([[2, 3], [3, 2]]),
    2 := Alternatives([[4, 4], [5, 5]]),
    3 := Alternatives([[4, 5], [5, 4]]),
    4 := Literal("a"),
    5 := Literal("b")]

  predicate Same(s: string) {
    s == "aa" || s == "bb"
  }

  predicate Mixed(s: string) {
    s == "ab" || s == "ba"
  }

  /** The language of rule 1 of the second test: a same pair and a mixed pair, in either order. */
  predicate Test2Rule1Word(s: string) {
    |s| == 4 && ((Same(s[..2]) && Mixed(s[2..])) || (Mixed(s[..2]) && Same(s[2..])))
  }

  lemma Test2Letters()
    ensures Fixed(Test2, 4, 1) && Fixed(Test2, 5, 1)
    ensures forall w: string :: MatchRule(Test2, w, 4, {}) == Ok(w == "a") && MatchRule(Test2, w, 5, {}) == Ok(w == "b")
  {
    LiteralFixed(Test2, 4);
    LiteralFixed(Test2, 5);
  }

  lemma Test2Pairs(w: string)
    ensures Fixed(Test2, 2, 2) && Fixed(Test2, 3, 2)
    ensures MatchRule(Test2, w, 2, {}) == Ok(Same(w))
    ensures MatchRule(Test2, w, 3, {}) == Ok(Mixed(w))
  {
    Test2Same(w);
    Test2Mixed(w);
  }

  lemma Test2Same(w: string)
    ensures Fixed(Test2, 2, 2) && MatchRule(Test2, w, 2, {}) == Ok(Same(w))
  {
    Test2Letters();
    PairsFixed(Test2, 2, 4, 4, 5, 5, 1);
    if |w| == 2 {
      TwoChars(w, 'a', 'a');
      TwoChars(w, 'b', 'b');
    }
  }

  lemma Test2Mixed(w: string)
    ensures Fixed(Test2, 3, 2) && MatchRule(Test2, w, 3, {}) == Ok(Mixed(w))
  {
    Test2Letters();
    PairsFixed(Test2, 3, 4, 5, 5, 4, 1);
    if |w| == 2 {
      TwoChars(w, 'a', 'b');
      TwoChars(w, 'b', 'a');
    }
  }

  lemma Test2Rule1(w: string)
    ensures Fixed(Test2, 1, 4)
    ensures MatchRule(Test2, w, 1, {}) == Ok(Test2Rule1Word(w))
  {
    Test2Pairs(w);
    PairsFixed(Test2, 1, 2, 3, 3, 2, 2);
    if |w| == 4 {
      Test2Pairs(w[..2]);
      Test2Pairs(w[2..]);
    }
  }

  /** Rule 0 of the second test: `a`, a word of rule 1, then `b`. */
  lemma Test2Language(w: string)
    ensures MatchRule(Test2, w, 0, {}) == Ok(|w| == 6 && w[0] == 'a' && Test2Rule1Word(w[1..5]) && w[5] == 'b')
  {
    Test2Letters();
    Test2Rule1(w);
    SingleSequence(Test2, w, 0, [4, 1, 5]);
    ConsFixed(Test2, w, [4, 1, 5], 1, {0});
    assert [4, 1, 5][1..] == [1, 5];
    if |w| >= 3 {
      Test2Rest(w, w[1..]);
      assert w[..1] == [w[0]];
    }
  }

  lemma Test2Rest(w: string, rest: string)
    requires |w| >= 3 && rest == w[1..]
    ensures MatchSeq(Test2, rest, [1, 5], {}) == Ok(|w| == 6 && Test2Rule1Word(w[1..5]) && w[5] == 'b')
  {
    Test2Letters();
    Test2Rule1(rest);
    PairFixed(Test2, rest, 1, 5, 4, 1, {});
    if |rest| == 5 {
      Test2Rule1(rest[..4]);
      assert rest[..4] == w[1..5];
      assert rest[4..] == [w[5]];
    }
  }

  lemma Rule1Words()
    ensures Test2Rule1Word("babb") && Test2Rule1Word("bbba") && !Test2Rule1Word("aabb")
  {
    assert "babb"[..2] == "ba" && "babb"[2..] == "bb";
    assert "bbba"[..2] == "bb" && "bbba"[2..] == "ba";
    assert "aabb"[..2] == "aa" && "aabb"[2..] == "bb";
  }

  /** `test2results`: `ababbb` and `abbbab` match, `bababa`, `aaabbb` and `aaaabbb` do not. */
  lemma Test2Results()
    ensures MatchRule(Test2, "ababbb", 0, {}) == Ok(true)
    ensures MatchRule(Test2, "bababa", 0, {}) == Ok(false)
    ensures MatchRule(Test2, "abbbab", 0, {}) == Ok(true)
    ensures MatchRule(Test2, "aaabbb", 0, {}) == Ok(false)
    ensures MatchRule(Test2, "aaaabbb", 0, {}) == Ok(false)
  {
    Rule1Words();
    Test2Language("ababbb");
    assert "ababbb"[1..5] == "babb";
    Test2Language("bababa");
    Test2Language("abbbab");
    assert "abbbab"[1..5] == "bbba";
    Test2Language("aaabbb");
    assert "aaabbb"[1..5] == "aabb";
    Test2Language("aaaabbb");
  }

  // ---------------------------------------------------------------- update_rules (19/19.py:72-74)

  /** Rule 0 is rule 8 then rule 11, with 8 a single `a` and 11 the pair `ab`. */
  const Before: Rules := map[
    0 := Alternatives([[8, 11]]),
    8 := Alternatives([[42]]),
    11 := Alternatives([[42, 31]]),
    42 := Literal("a"),
    31 := Literal("b")]

  const After: Rules := UpdateRules(Before)

  lemma BeforeLetters()
    ensures Fixed(Before, 42, 1) && Fixed(Before, 31, 1)
    ensures forall w: string :: MatchRule(Before, w, 42, {}) == Ok(w == "a") && MatchRule(Before, w, 31, {}) == Ok(w == "b")
  {
    LiteralFixed(Before, 42);
    LiteralFixed(Before, 31);
  }

  lemma BeforeRules()
    ensures Fixed(Before, 8, 1) && Fixed(Before, 11, 2)
  {
    BeforeLetters();
    forall v: string ensures MatchRule(Before, v, 8, {}) == Ok(v == "a") {
      SingleSequence(Before, v, 8, [42]);
    }
    forall v: string ensures MatchRule(Before, v, 11, {}).Ok? && (MatchRule(Before, v, 11, {}).value ==> |v| == 2) {
      SingleSequence(Before, v, 11, [42, 31]);
      PairFixed(Before, v, 42, 31, 1, 1, {11});
    }
  }

  /** Before the update, rule 0 matches only three-character messages: not `aaab`. */
  lemma BeforeNoMatch()
    ensures MatchRule(Before, "aaab", 0, {}) == Ok(false)
  {
    BeforeRules();
    SingleSequence(Before, "aaab", 0, [8, 11]);
    PairFixed(Before, "aaab", 8, 11, 1, 2, {0});
  }

  lemma AfterRules()
    ensures After[0] == Alternatives([[8, 11]]) && After[42] == Literal("a") && After[31] == Literal("b")
    ensures After[8] == Alternatives([[42], [42, 8]]) && After[11] == Alternatives([[42, 31], [42, 11, 31]])
    ensures Fixed(After, 42, 1) && Fixed(After, 31, 1)
  {
    LiteralFixed(After, 42);
    LiteralFixed(After, 31);
  }

  /** The first alternative of a rule matches. */
  lemma FirstAlternative(rules: Rules, w: string, id: int, s1: seq<int>, s2: seq<int>)
    requires id in rules && rules[id] == Alternatives([s1, s2]) && MatchSeq(rules, w, s1, {id}) == Ok(true)
    ensures MatchRule(rules, w, id, {}) == Ok(true)
  {
    assert {} + {id} == {id};
  }

  /** Neither alternative of a rule matches, or the second one does after the first fails. */
  lemma SecondAlternative(rules: Rules, w: string, id: int, s1: seq<int>, s2: seq<int>)
    requires id in rules && rules[id] == Alternatives([s1, s2]) && MatchSeq(rules, w, s1, {id}) == Ok(false)
    ensures MatchRule(rules, w, id, {}) == MatchSeq(rules, w, s2, {id})
  {
    assert {} + {id} == {id};
    var seqs := [s1, s2];
    assert seqs[1..] == [s2] && seqs[1..][1..] == [];
    assert MatchAny(rules, w, seqs[1..], {id}) == MatchSeq(rules, w, s2, {id}) by {
      assert MatchAny(rules, w, [], {id}) == Ok(false);
    }
  }

  lemma AfterEightA()
    ensures MatchRule(After, "a", 8, {}) == Ok(true)
  {
    AfterRules();
    assert MatchSeq(After, "a", [42], {8}) == MatchRule(After, "a", 42, {8});
    FirstAlternative(After, "a", 8, [42], [42, 8]);
  }

  lemma AfterEightAa()
    ensures MatchRule(After, "aa", 8, {}) == Ok(true)
  {
    AfterRules();
    AfterEightA();
    assert MatchSeq(After, "aa", [42], {8}) == MatchRule(After, "aa", 42, {8});
    assert "aa"[..1] == "a" && "aa"[1..] == "a";
    assert [42, 8][1..] == [8];
    assert MatchSeq(After, "a", [8], {}) == MatchRule(After, "a", 8, {});
    assert SplitLoop(After, "aa", [42, 8], 0) == Ok(true);
    SecondAlternative(After, "aa", 8, [42], [42, 8]);
  }

  lemma AfterElevenAb()
    ensures MatchRule(After, "ab", 11, {}) == Ok(true)
  {
    AfterRules();
    PairFixed(After, "ab", 42, 31, 1, 1, {11});
    assert "ab"[..1] == "a" && "ab"[1..] == "b";
    FirstAlternative(After, "ab", 11, [42, 31], [42, 11, 31]);
  }

  lemma AfterElevenA()
    ensures MatchRule(After, "a", 11, {}) == Ok(false)
  {
    AfterRules();
    PairFixed(After, "a", 42, 31, 1, 1, {11});
    ConsFixed(After, "a", [42, 11, 31], 1, {11});
    SecondAlternative(After, "a", 11, [42, 31], [42, 11, 31]);
  }

  lemma AfterElevenAab()
    ensures MatchRule(After, "aab", 11, {}) == Ok(false)
  {
    AfterRules();
    AfterElevenA();
    PairFixed(After, "aab", 42, 31, 1, 1, {11});
    ConsFixed(After, "aab", [42, 11, 31], 1, {11});
    assert "aab"[..1] == "a" && "aab"[1..] == "ab" && "ab"[..1] == "a";
    assert [42, 11, 31][1..] == [11, 31];
    assert SplitLoop(After, "ab", [11, 31], 1) == Ok(false);
    assert SplitLoop(After, "ab", [11, 31], 0) == Ok(false);
    SecondAlternative(After, "aab", 11, [42, 31], [42, 11, 31]);
  }

  /** After the update, rule 8 takes `aa` and rule 11 takes `ab`: `aaab` matches rule 0. */
  lemma AfterMatch()
    ensures MatchRule(After, "aaab", 0, {}) == Ok(true)
  {
    AfterRules();
    AfterEightA();
    AfterEightAa();
    AfterElevenAb();
    AfterElevenAab();
    var m := "aaab";
    assert m[..1] == "a" && m[1..] == "aab" && m[..2] == "aa" && m[2..] == "ab";
    assert [8, 11][1..] == [11];
    assert MatchSeq(After, "aab", [11], {}) == MatchRule(After, "aab", 11, {});
    assert MatchSeq(After, "ab", [11], {}) == MatchRule(After, "ab", 11, {});
    assert SplitLoop(After, m, [8, 11], 1) == Ok(true);
    assert SplitLoop(After, m, [8, 11], 0) == Ok(true);
    SingleSequence(After, m, 0, [8, 11]);
  }

  /** `update_rules` turns the non-match of `aaab` into a match. */
  lemma UpdateRulesExample()
    ensures MatchRule(Before, "aaab", 0, {}) == Ok(false)
    ensures MatchRule(UpdateRules(Before), "aaab", 0, {}) == Ok(true)
  {
    BeforeNoMatch();
    AfterMatch();
  }
}
