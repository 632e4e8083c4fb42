/**
 * The Python built-ins the puzzle scripts lean on, stated over `string`
 * (= seq<char>) and `seq<T>`: whitespace tests and stripping, `str.split`,
 * `int()` on decimal text, slicing with negative indices, `list.index`.
 * Only the ASCII whitespace characters are modelled.
 */
module Py {
  import opened Base

  // ---------------------------------------------------------------- whitespace

  /** The ASCII characters for which Python's `str.isspace()` holds. */
  predicate IsSpaceChar(c: char) {
    c == ' ' || ('\t' <= c <= '\r') || (28 <= c as int <= 31)
  }

  /** `s.isspace()`: non-empty and made only of whitespace. */
  predicate IsSpace(s: string) {
    |s| > 0 && forall i :: 0 <= i < |s| ==> IsSpaceChar(s[i])
  }

  /** `s.rstrip()`: the longest prefix of `s` that does not end in whitespace. */
  function RStrip(s: string): (r: string)
    ensures r <= s
    ensures r == [] || !IsSpaceChar(r[|r| - 1])
    ensures forall i :: |r| <= i < |s| ==> IsSpaceChar(s[i])
  {
    if s != [] && IsSpaceChar(s[|s| - 1]) then RStrip(s[..|s| - 1]) else s
  }

  /** `s.lstrip()`: `s` without its leading whitespace. */
  function LStrip(s: string): (r: string)
    ensures |r| <= |s| && r == s[|s| - |r|..]
    ensures r == [] || !IsSpaceChar(r[0])
    ensures forall i :: 0 <= i < |s| - |r| ==> IsSpaceChar(s[i])
  {
    if s != [] && IsSpaceChar(s[0]) then LStrip(s[1..]) else s
  }

  /** `s.strip()`. */
  function Strip(s: string): string {
    LStrip(RStrip(s))
  }

  /** Text that neither starts nor ends with whitespace is its own `strip()`. */
  lemma StripUnchanged(s: string)
    requires s != [] && !IsSpaceChar(s[0]) && !IsSpaceChar(s[|s| - 1])
    ensures Strip(s) == s
  {
  }

  /** Text that does not end with whitespace is its own `rstrip()`. */
  lemma RStripUnchanged(s: string)
    requires s != [] && !IsSpaceChar(s[|s| - 1])
    ensures RStrip(s) == s
  {
  }

  /** A line read from a file: the text, then its newline, which `rstrip()` removes again. */
  lemma RStripNewline(s: string)
    requires s == [] || !IsSpaceChar(s[|s| - 1])
    ensures RStrip(s + "\n") == s
  {
    assert (s + "\n")[..|s|] == s;
  }

  /** `s.rstrip(c)` for a single character `c`. */
  function RStripChar(s: string, c: char): (r: string)
    ensures r <= s
    ensures r == [] || r[|r| - 1] != c
    ensures forall i :: |r| <= i < |s| ==> s[i] == c
  {
    if s != [] && s[|s| - 1] == c then RStripChar(s[..|s| - 1], c) else s
  }

  // ---------------------------------------------------------------- searching

  /** `sep` occurs in `s` starting at index `j`. */
  predicate OccursAt(s: string, sep: string, j: int) {
    0 <= j && j + |sep| <= |s| && s[j..j + |sep|] == sep
  }

  /** `sep` does not occur where its first character does not. */
  lemma NotOccursAt(s: string, sep: string, j: int)
    requires 0 <= j < |s| && sep != [] && s[j] != sep[0]
    ensures !OccursAt(s, sep, j)
  {
    if j + |sep| <= |s| {
      assert s[j..j + |sep|][0] == s[j];
    }
  }

  /** The first index at or after `from` where `sep` occurs in `s`. */
  function FindFrom(s: string, sep: string, from: nat): (r: Option<nat>)
    requires |sep| > 0
    ensures r.Some? ==> from <= r.value && OccursAt(s, sep, r.value)
    ensures r.Some? ==> forall j :: from <= j < r.value ==> !OccursAt(s, sep, j)
    ensures r.None? ==> forall j :: from <= j ==> !OccursAt(s, sep, j)
    decreases |s| - from
  {
    if from + |sep| > |s| then None
    else if s[from..from + |sep|] == sep then Some(from)
    else FindFrom(s, sep, from + 1)
  }

  /** `s.find(sep)`, with None for -1. */
  function Find(s: string, sep: string): Option<nat>
    requires |sep| > 0
  {
    FindFrom(s, sep, 0)
  }

  predicate StartsWith(s: string, prefix: string) {
    prefix <= s
  }

  /** A text that differs from `prefix` at some index of both does not start with it. */
  lemma NotStartsWith(s: string, prefix: string, i: nat)
    requires i < |prefix| && i < |s| && s[i] != prefix[i]
    ensures !StartsWith(s, prefix)
  {
  }

  predicate EndsWith(s: string, suffix: string) {
    |suffix| <= |s| && s[|s| - |suffix|..] == suffix
  }

  // ---------------------------------------------------------------- splitting

  /** `s.split(sep)` for a non-empty separator: cut at each leftmost occurrence. */
  function Split(s: string, sep: string): (parts: seq<string>)
    requires |sep| > 0
    ensures |parts| >= 1
    decreases |s|
  {
    match Find(s, sep)
    case None => [s]
    case Some(i) => [s[..i]] + Split(s[i + |sep|..], sep)
  }

  /** `sep.join(parts)`. */
  function Join(parts: seq<string>, sep: string): string {
    if parts == [] then ""
    else if |parts| == 1 then parts[0]
    else parts[0] + sep + Join(parts[1..], sep)
  }

  /** Joining the pieces of a split with the same separator gives back the string. */
  lemma {:induction false} JoinSplit(s: string, sep: string)
    requires |sep| > 0
    ensures Join(Split(s, sep), sep) == s
    decreases |s|
  {
    match Find(s, sep)
    case None =>
    case Some(i) =>
      var rest := s[i + |sep|..];
      var tail := Split(rest, sep);
      JoinSplit(rest, sep);
      var parts := [s[..i]] + tail;
      assert Split(s, sep) == parts;
      assert |parts| > 1 && parts[0] == s[..i] && parts[1..] == tail;
      assert Join(parts, sep) == s[..i] + sep + rest;
      assert s[i..i + |sep|] == sep;
      assert s == s[..i] + s[i..i + |sep|] + rest;
  }

  /** No piece of a split on a one-character separator contains that character. */
  lemma {:induction false} SplitPiecesAvoidSep(s: string, c: char)
    ensures forall p :: p in Split(s, [c]) ==> c !in p
    decreases |s|
  {
    match Find(s, [c])
    case None =>
      forall j | 0 <= j < |s| ensures s[j] != c {
        assert !OccursAt(s, [c], j);
        assert s[j..j + 1] == [s[j]];
      }
    case Some(i) =>
      SplitPiecesAvoidSep(s[i + 1..], c);
      forall j | 0 <= j < i ensures s[j] != c {
        assert !OccursAt(s, [c], j);
        assert s[j..j + 1] == [s[j]];
      }
      assert Split(s, [c]) == [s[..i]] + Split(s[i + 1..], [c]);
  }

  /** Splitting at an occurrence of `sep` that is the first one. */
  lemma SplitAtFirstSep(a: string, sep: string, b: string)
    requires |sep| > 0
    requires forall j :: 0 <= j < |a| ==> !OccursAt(a + sep + b, sep, j)
    ensures Split(a + sep + b, sep) == [a] + Split(b, sep)
  {
    var s := a + sep + b;
    assert s[|a|..|a| + |sep|] == sep;
    assert OccursAt(s, sep, |a|);
    assert Find(s, sep) == Some(|a|);
    assert s[..|a|] == a && s[|a| + |sep|..] == b;
  }

  /** Splitting a string free of the separator character gives the string itself. */
  lemma SplitWithoutSep(s: string, c: char)
    requires c !in s
    ensures Split(s, [c]) == [s]
  {
    forall j | 0 <= j ensures !OccursAt(s, [c], j) {
      if j < |s| {
        assert s[j..j + 1] == [s[j]];
      }
    }
  }

  /** Splitting at the first separator character: the piece before it, then the split of the rest. */
  lemma SplitAtFirst(a: string, c: char, b: string)
    requires c !in a
    ensures Split(a + [c] + b, [c]) == [a] + Split(b, [c])
  {
    var s := a + [c] + b;
    forall j | 0 <= j < |a| ensures !OccursAt(s, [c], j) {
      if j < |s| {
        assert s[j..j + 1] == [s[j]];
      }
    }
    assert OccursAt(s, [c], |a|) by {
      assert s[|a|..|a| + 1] == [c];
    }
    assert Find(s, [c]) == Some(|a|);
    assert s[..|a|] == a && s[|a| + 1..] == b;
  }

  /** Splitting a join of separator-free pieces on that separator gives the pieces back. */
  lemma {:induction false} SplitJoin(parts: seq<string>, c: char)
    requires parts != [] && forall i :: 0 <= i < |parts| ==> c !in parts[i]
    ensures Split(Join(parts, [c]), [c]) == parts
  {
    if |parts| == 1 {
      SplitWithoutSep(parts[0], c);
    } else {
      SplitJoin(parts[1..], c);
      SplitAtFirst(parts[0], c, Join(parts[1..], [c]));
      assert parts == [parts[0]] + parts[1..];
    }
  }

  /** The first maximal run of non-whitespace characters of `s` (which must not start with whitespace). */
  function WordEnd(s: string, i: nat): (r: nat)
    requires i <= |s|
    ensures i <= r <= |s|
    ensures forall j :: i <= j < r ==> !IsSpaceChar(s[j])
    ensures r == |s| || IsSpaceChar(s[r])
    decreases |s| - i
  {
    if i == |s| || IsSpaceChar(s[i]) then i else WordEnd(s, i + 1)
  }

  /** `s.split()`: the maximal runs of non-whitespace characters, in order. */
  function SplitWhitespace(s: string): seq<string>
    decreases |s|
  {
    var t := LStrip(s);
    if t == [] then []
    else
      var e := WordEnd(t, 0);
      [t[..e]] + SplitWhitespace(t[e..])
  }

  /** No character of `w` is whitespace. */
  predicate NoSpace(w: string) {
    forall j :: 0 <= j < |w| ==> !IsSpaceChar(w[j])
  }

  /** The word starting at `i` ends at the first whitespace character. */
  lemma {:induction false} WordEndAt(s: string, i: nat, e: nat)
    requires i <= e <= |s| && (forall j :: i <= j < e ==> !IsSpaceChar(s[j])) && (e == |s| || IsSpaceChar(s[e]))
    ensures WordEnd(s, i) == e
    decreases e - i
  {
    if i < e {
      WordEndAt(s, i + 1, e);
    }
  }

  /** A word followed by whitespace (or nothing) is split off first. */
  lemma SplitWhitespaceWord(w: string, rest: string)
    requires w != [] && NoSpace(w) && (rest == [] || IsSpaceChar(rest[0]))
    ensures SplitWhitespace(w + rest) == [w] + SplitWhitespace(rest)
  {
    var s := w + rest;
    assert s[0] == w[0];
    assert LStrip(s) == s;
    assert s[..|w|] == w && s[|w|..] == rest;
    assert forall j :: 0 <= j < |w| ==> s[j] == w[j];
    if rest != [] {
      assert s[|w|] == rest[0];
    }
    WordEndAt(s, 0, |w|);
  }

  /** Leading whitespace does not change `split()`. */
  lemma SplitWhitespaceLStrip(s: string)
    ensures SplitWhitespace(s) == SplitWhitespace(LStrip(s))
  {
    var t := LStrip(s);
    if t != [] {
      assert LStrip(t) == t;
    }
  }

  /** One space before a word does not change `split()`. */
  lemma SplitWhitespaceAfterSpace(x: string)
    requires x != [] && !IsSpaceChar(x[0])
    ensures SplitWhitespace(" " + x) == SplitWhitespace(x)
  {
    var t := " " + x;
    assert t[1..] == x;
    assert LStrip(x) == x;
    assert LStrip(t) == x;
    SplitWhitespaceLStrip(t);
  }

  /** `"a b".split() == ["a", "b"]` for two words. */
  lemma SplitWhitespaceTwo(a: string, b: string)
    requires a != [] && NoSpace(a) && b != [] && NoSpace(b)
    ensures SplitWhitespace(a + " " + b) == [a, b]
  {
    var t := " " + b;
    assert a + " " + b == a + t;
    SplitWhitespaceWord(a, t);
    SplitWhitespaceSpaced(b);
  }

  /** A word after one space splits to itself. */
  lemma SplitWhitespaceSpaced(b: string)
    requires b != [] && NoSpace(b)
    ensures SplitWhitespace(" " + b) == [b]
  {
    var t := " " + b;
    assert t[1..] == b;
    assert LStrip(b) == b;
    assert LStrip(t) == b;
    SplitWhitespaceLStrip(t);
    SplitWhitespaceOne(b);
  }

  /** A single word splits to itself. */
  lemma SplitWhitespaceOne(b: string)
    requires b != [] && NoSpace(b)
    ensures SplitWhitespace(b) == [b]
  {
    var e: string := [];
    assert b + e == b;
    SplitWhitespaceWord(b, e);
    assert SplitWhitespace(e) == [];
  }

  /** `s.replace(a, b)` for single characters. */
  function ReplaceChar(s: string, a: char, b: char): (r: string)
    ensures |r| == |s|
    ensures forall i :: 0 <= i < |s| ==> r[i] == if s[i] == a then b else s[i]
  {
    seq(|s|, i requires 0 <= i < |s| => if s[i] == a then b else s[i])
  }

  lemma ReplaceCharConcat(x: string, y: string, a: char, b: char)
    ensures ReplaceChar(x + y, a, b) == ReplaceChar(x, a, b) + ReplaceChar(y, a, b)
  {
    assert forall i :: 0 <= i < |x + y| ==> (x + y)[i] == if i < |x| then x[i] else y[i - |x|];
  }

  // ---------------------------------------------------------------- integers

  predicate IsDigit(c: char) {
    '0' <= c <= '9'
  }

  predicate AllDigits(s: string) {
    forall i :: 0 <= i < |s| ==> IsDigit(s[i])
  }

  /** The end of the run of decimal digits that starts at index `i`. */
  function DigitsEnd(s: string, i: nat): (r: nat)
    requires i <= |s|
    ensures i <= r <= |s|
    ensures forall j :: i <= j < r ==> IsDigit(s[j])
    ensures r == |s| || !IsDigit(s[r])
    decreases |s| - i
  {
    if i == |s| || !IsDigit(s[i]) then i else DigitsEnd(s, i + 1)
  }

  /** The run of digits starting at `i` ends at the first non-digit. */
  lemma {:induction false} DigitsEndAt(s: string, i: nat, e: nat)
    requires i <= e <= |s| && (forall j :: i <= j < e ==> IsDigit(s[j])) && (e == |s| || !IsDigit(s[e]))
    ensures DigitsEnd(s, i) == e
    decreases e - i
  {
    if i < e {
      DigitsEndAt(s, i + 1, e);
    }
  }

  function DigitValue(c: char): (d: nat)
    requires IsDigit(c)
    ensures d < 10
  {
    (c as int) - ('0' as int)
  }

  /** The value of a string of decimal digits, most significant first. */
  function DigitsValue(s: string): nat
    requires AllDigits(s)
  {
    if s == [] then 0 else 10 * DigitsValue(s[..|s| - 1]) + DigitValue(s[|s| - 1])
  }

  /** `int(s)`: an optional sign followed by at least one decimal digit, else a ValueError. */
  function ParseInt(s: string): (r: Option<int>)
    ensures r.Some? ==> s != []
  {
    if |s| > 0 && (s[0] == '-' || s[0] == '+') then
      var body := s[1..];
      if body != [] && AllDigits(body) then
        var v: int := DigitsValue(body);
        Some(if s[0] == '-' then -v else v)
      else None
    else if s != [] && AllDigits(s) then Some(DigitsValue(s))
    else None
  }

  /** `int(s)` on a line as read from a file: surrounding whitespace, such as the newline, is ignored. */
  function IntOfLine(s: string): Option<int> {
    ParseInt(Strip(s))
  }

  function DigitChar(d: nat): (c: char)
    requires d < 10
    ensures IsDigit(c) && DigitValue(c) == d
  {
    ('0' as int + d) as char
  }

  /** `str(n)` for a natural number: its decimal digits, no leading zeros. */
  function NatToString(n: nat): (s: string)
    ensures s != [] && AllDigits(s) && DigitsValue(s) == n
    decreases n
  {
    var s := if n < 10 then [DigitChar(n)] else NatToString(n / 10) + [DigitChar(n % 10)];
    assert s[..|s| - 1] == (if n < 10 then [] else NatToString(n / 10));
    s
  }

  /** `int(str(n))` gives back `n`. */
  lemma ParseNatToString(n: nat)
    ensures ParseInt(NatToString(n)) == Some(n)
  {
    var s := NatToString(n);
    assert s[0] != '-' && s[0] != '+' by {
      assert IsDigit(s[0]);
    }
  }

  /** A signed integer as the puzzle inputs write it: "+3", "-99", "+0". */
  function SignedToString(n: int): (s: string)
    ensures |s| >= 2 && (s[0] == '+' || s[0] == '-') && NoSpace(s)
  {
    var s := (if n < 0 then "-" else "+") + NatToString(if n < 0 then -n else n);
    assert forall j :: 1 <= j < |s| ==> IsDigit(s[j]);
    s
  }

  /** `int()` reads the signed form back. */
  lemma ParseSignedToString(n: int)
    ensures ParseInt(SignedToString(n)) == Some(n)
  {
    var s := SignedToString(n);
    assert s[1..] == NatToString(if n < 0 then -n else n);
  }

  // ---------------------------------------------------------------- sequences

  /** Python's `a % b`: the remainder takes the sign of the divisor. */
  function Mod(a: int, b: int): (r: int)
    requires b != 0
    ensures b > 0 ==> r == a % b
    ensures b < 0 ==> b < r <= 0
  {
    if b > 0 then a % b else -((-a) % (-b))
  }

  /** Python's `a // b`: the quotient rounded towards minus infinity, so that `a == b * (a // b) + a % b`. */
  function FloorDiv(a: int, b: int): (q: int)
    requires b != 0
    ensures a == b * q + Mod(a, b)
  {
    if b > 0 then a / b else (-a) / (-b)
  }

  /** Python's normalisation of a slice bound: negative counts from the end, then clamp. */
  function SliceBound(i: int, len: nat): (r: nat)
    ensures r <= len
  {
    if i < 0 then (if i + len < 0 then 0 else i + len) else if i > len then len else i
  }

  /** `s[a:b]` with Python's rules for negative and out-of-range bounds. */
  function Slice<T>(s: seq<T>, a: int, b: int): (r: seq<T>)
    ensures |r| <= |s|
  {
    var lo, hi := SliceBound(a, |s|), SliceBound(b, |s|);
    if lo <= hi then s[lo..hi] else []
  }

  /** The position `s[i]` refers to in Python, for -|s| <= i < |s|. */
  function PyIndex(i: int, len: nat): (k: nat)
    requires -(len as int) <= i < len
    ensures k < len
  {
    if i < 0 then i + len else i
  }

  /** `xs.index(x)`, with None for the ValueError. */
  function IndexOf<T(==)>(xs: seq<T>, x: T): (r: Option<nat>)
    ensures r.Some? <==> x in xs
    ensures r.Some? ==> r.value < |xs| && xs[r.value] == x && x !in xs[..r.value]
  {
    if xs == [] then None
    else if xs[0] == x then Some(0)
    else match IndexOf(xs[1..], x)
      case None => None
      case Some(k) =>
        assert xs[..k + 1] == [xs[0]] + xs[1..][..k];
        Some(k + 1)
  }

  function Sum(xs: seq<int>): int {
    if xs == [] then 0 else xs[0] + Sum(xs[1..])
  }

  lemma {:induction false} SumAppend(xs: seq<int>, ys: seq<int>)
    ensures Sum(xs + ys) == Sum(xs) + Sum(ys)
  {
    if xs == [] {
      assert xs + ys == ys;
    } else {
      assert (xs + ys)[1..] == xs[1..] + ys;
      SumAppend(xs[1..], ys);
    }
  }

  /** 2 to the power `n`, the value of `1 << n`. */
  function Pow2(n: nat): (r: nat)
    ensures r >= 1
  {
    if n == 0 then 1 else 2 * Pow2(n - 1)
  }
}
