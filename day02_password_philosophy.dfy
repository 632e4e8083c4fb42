/**
 * Day 2 (02/02.py): password policies of the form "a-b c: password".
 * The regular expression of `parse_line` is written out as `SplitLine`,
 * and its exactness is proved both ways against `Render`.
 */
module PasswordPhilosophy {
  import opened Base
  import Py

  /** `Policy(first_pos, second_pos, letter)`. */
  datatype Policy = Policy(firstPos: int, secondPos: int, letter: char)

  /** The four groups of the pattern `([0-9]+)-([0-9]+) ([a-zA-Z]): (.+)`. */
  datatype LineParts = LineParts(first: string, second: string, letter: char, password: string)

  predicate IsLetter(c: char) {
    ('a' <= c <= 'z') || ('A' <= c <= 'Z')
  }

  /** The groups satisfy their sub-patterns (`.` matches anything but a newline). */
  predicate WellFormed(p: LineParts) {
    p.first != [] && Py.AllDigits(p.first) && p.second != [] && Py.AllDigits(p.second)
    && IsLetter(p.letter) && p.password != [] && '\n' !in p.password
  }

  /** The text the pattern matches for the given groups. */
  function Render(p: LineParts): string {
    p.first + "-" + p.second + " " + [p.letter] + ": " + p.password
  }

  /** `re.fullmatch` of the pattern: the groups, if the whole of `s` matches. */
  function SplitLine(s: string): (r: Option<LineParts>)
    ensures r.Some? ==> WellFormed(r.value) && Render(r.value) == s
  {
    var i := Py.DigitsEnd(s, 0);
    if i == 0 || i == |s| || s[i] != '-' then None
    else
      var j := Py.DigitsEnd(s, i + 1);
      if j == i + 1 || j + 5 > |s| || s[j] != ' ' || !IsLetter(s[j + 1]) || s[j + 2] != ':' || s[j + 3] != ' '
         || '\n' in s[j + 4..]
      then None
      else
        var p := LineParts(s[..i], s[i + 1..j], s[j + 1], s[j + 4..]);
        assert Render(p) == s[..i] + [s[i]] + s[i + 1..j] + [s[j]] + [s[j + 1]] + s[j + 2..j + 4] + s[j + 4..];
        Pieces(s, i, j);
        Some(p)
  }

  /** The text cut at the dash, the space and the colon, and put together again. */
  lemma Pieces(s: string, i: nat, j: nat)
    requires i < j && j + 4 <= |s|
    ensures s == s[..i] + [s[i]] + s[i + 1..j] + [s[j]] + [s[j + 1]] + s[j + 2..j + 4] + s[j + 4..]
  {
    assert s[..i] + [s[i]] == s[..i + 1];
    assert s[..i + 1] + s[i + 1..j] == s[..j];
    assert s[..j] + [s[j]] + [s[j + 1]] == s[..j + 2];
    assert s[..j + 2] + s[j + 2..j + 4] == s[..j + 4];
    assert s[..j + 4] + s[j + 4..] == s;
  }

  /** Every well-formed set of groups is matched, so `SplitLine` accepts exactly the pattern's language. */
  lemma SplitRender(p: LineParts)
    requires WellFormed(p)
    ensures SplitLine(Render(p)) == Some(p)
  {
    var s := Render(p);
    var i := |p.first|;
    var j := i + 1 + |p.second|;
    assert s[..i] == p.first && s[i] == '-';
    assert s[i + 1..j] == p.second && s[j] == ' ' && s[j + 1] == p.letter;
    assert s[j + 2] == ':' && s[j + 3] == ' ' && s[j + 4..] == p.password;
    assert Py.DigitsEnd(s, 0) == i;
    assert Py.DigitsEnd(s, i + 1) == j;
  }

  /** `parse_line`: strip trailing whitespace, match, and convert the two numbers. */
  function ParseLine(line: string): (r: Result<(Policy, string)>)
    ensures r.Ok? <==> SplitLine(Py.RStrip(line)).Some?
    ensures r.Ok? ==> var p := SplitLine(Py.RStrip(line)).value;
                      r.value == (Policy(Py.DigitsValue(p.first), Py.DigitsValue(p.second), p.letter), p.password)
  {
    match SplitLine(Py.RStrip(line))
    case None => Err("invalid input line")
    case Some(p) => Ok((Policy(Py.DigitsValue(p.first), Py.DigitsValue(p.second), p.letter), p.password))
  }

  /** The parsed positions are never negative. */
  lemma ParsedPositionsNatural(line: string)
    requires ParseLine(line).Ok?
    ensures ParseLine(line).value.0.firstPos >= 0 && ParseLine(line).value.0.secondPos >= 0
  {
  }

  /** `password[i]` is defined for -|password| <= i < |password|. */
  predicate InRange(i: int, password: string) {
    -|password| <= i < |password|
  }

  /** `password[i] == letter`, with Python's negative indexing. */
  function HoldsAt(password: string, i: int, letter: char): bool
    requires InRange(i, password)
  {
    password[Py.PyIndex(i, |password|)] == letter
  }

  /** `password_is_valid`: an IndexError when a position falls outside the password, else the XOR. */
  function PasswordIsValid(policy: Policy, password: string): (r: Result<bool>)
    ensures r.Ok? <==> InRange(policy.firstPos - 1, password) && InRange(policy.secondPos - 1, password)
  {
    var i, j := policy.firstPos - 1, policy.secondPos - 1;
    if !InRange(i, password) then Err("IndexError")
    else if !InRange(j, password) then Err("IndexError")
    else Ok(HoldsAt(password, i, policy.letter) != HoldsAt(password, j, policy.letter))
  }

  /** The positions of `password` (1-based, within bounds) named by the policy that hold its letter. */
  function Hits(policy: Policy, password: string): set<int> {
    set k | k in Positions(policy) && 1 <= k <= |password| && password[k - 1] == policy.letter
  }

  function Positions(policy: Policy): set<int> {
    {policy.firstPos, policy.secondPos}
  }

  /** For distinct positions inside the password, valid means exactly one of them holds the letter. */
  lemma ValidIffExactlyOne(policy: Policy, password: string)
    requires 1 <= policy.firstPos <= |password| && 1 <= policy.secondPos <= |password|
    requires policy.firstPos != policy.secondPos
    ensures PasswordIsValid(policy, password) == Ok(|Hits(policy, password)| == 1)
  {
    var a, b := policy.firstPos, policy.secondPos;
    var h := Hits(policy, password);
    var ha, hb := password[a - 1] == policy.letter, password[b - 1] == policy.letter;
    if ha && hb {
      assert h == {a, b};
    } else if ha {
      assert h == {a};
    } else if hb {
      assert h == {b};
    } else {
      assert h == {};
    }
  }

  /** Both positions holding the letter, or neither, makes the password invalid. */
  lemma BothOrNeitherInvalid(policy: Policy, password: string)
    requires PasswordIsValid(policy, password).Ok?
    ensures var i, j := policy.firstPos - 1, policy.secondPos - 1;
            HoldsAt(password, i, policy.letter) == HoldsAt(password, j, policy.letter)
            <==> !PasswordIsValid(policy, password).value
  {
  }

  /** A policy naming the same position twice accepts no password. */
  lemma SamePositionNeverValid(policy: Policy, password: string)
    requires policy.firstPos == policy.secondPos
    requires PasswordIsValid(policy, password).Ok?
    ensures !PasswordIsValid(policy, password).value
  {
  }

  /** Position 0 reads the last character, as Python's index -1 does. */
  lemma PositionZeroIsLast(policy: Policy, password: string)
    requires policy.firstPos == 0 && password != []
    ensures HoldsAt(password, policy.firstPos - 1, policy.letter) <==> password[|password| - 1] == policy.letter
  {
  }

  /** The sample lines and their verdicts (02/02.py:28-34). */
  lemma SampleLine1()
    ensures ParseLine("1-3 a: abcde\n") == Ok((Policy(1, 3, 'a'), "abcde"))
  {
    SampleLine("1-3 a: abcde\n", LineParts("1", "3", 'a', "abcde"), 1, 3);
  }

  lemma SampleLine2()
    ensures ParseLine("1-3 b: cdefg\n") == Ok((Policy(1, 3, 'b'), "cdefg"))
  {
    SampleLine("1-3 b: cdefg\n", LineParts("1", "3", 'b', "cdefg"), 1, 3);
  }

  lemma SampleLine3()
    ensures ParseLine("2-9 c: ccccccccc\n") == Ok((Policy(2, 9, 'c'), "ccccccccc"))
  {
    SampleLine("2-9 c: ccccccccc\n", LineParts("2", "9", 'c', "ccccccccc"), 2, 9);
  }

  lemma SampleVerdicts()
    ensures PasswordIsValid(Policy(1, 3, 'a'), "abcde") == Ok(true)
    ensures PasswordIsValid(Policy(1, 3, 'b'), "cdefg") == Ok(false)
    ensures PasswordIsValid(Policy(2, 9, 'c'), "ccccccccc") == Ok(false)
  {
  }

  /** A line made of one-digit positions, the groups `p` and a newline parses to those groups. */
  lemma SampleLine(line: string, p: LineParts, a: nat, b: nat)
    requires WellFormed(p) && line == Render(p) + "\n"
    requires !Py.IsSpaceChar(p.password[|p.password| - 1])
    requires p.first == [Py.DigitChar(a % 10)] && p.second == [Py.DigitChar(b % 10)] && a < 10 && b < 10
    ensures ParseLine(line) == Ok((Policy(a, b, p.letter), p.password))
  {
    SampleStrip(line, p);
    SplitRender(p);
    OneDigit(p.first, a);
    OneDigit(p.second, b);
  }

  lemma SampleStrip(line: string, p: LineParts)
    requires p.password != [] && line == Render(p) + "\n"
    requires !Py.IsSpaceChar(p.password[|p.password| - 1])
    ensures Py.RStrip(line) == Render(p)
  {
    var body := Render(p);
    assert body[|body| - 1] == p.password[|p.password| - 1];
    Py.RStripNewline(body);
  }

  lemma OneDigit(s: string, d: nat)
    requires d < 10 && s == [Py.DigitChar(d % 10)]
    ensures Py.AllDigits(s) && Py.DigitsValue(s) == d
  {
    assert s[..0] == [];
  }
}
