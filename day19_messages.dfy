/**
 * Day 19 (19/19.py): monster messages. Each rule line is either a quoted
 * literal (`4: "a"`) or alternatives of rule-id sequences
 * (`1: 2 3 | 3 2`). A message matches a rule when it equals the literal, or
 * when it matches one of the alternatives; a sequence of two or more ids
 * matches when the message splits into a non-empty head matching the first
 * id and a non-empty rest matching the others.
 *
 * The matchers are modelled twice: as pure recursive functions
 * (`MatchRule`, `MatchAny`, `MatchSeq`, `SplitLoop`), and as the
 * memoising methods of the class `Matcher`, whose two caches are proved to
 * hold only what the pure functions compute.
 */
module Messages {
  import opened Base
  import Py

  datatype RuleBody = Literal(text: string) | Alternatives(seqs: seq<seq<int>>)

  type Rules = map<int, RuleBody>

  datatype Input = Input(rules: Rules, messages: seq<string>)

  // ---------------------------------------------------------------- splitting a rule line

  /** Characters that cannot start or complete a separator `": "` or `" | "`. */
  predicate Plain(c: char) {
    c != ':' && c != '|'
  }

  predicate AllPlain(s: string) {
    forall j :: 0 <= j < |s| ==> Plain(s[j])
  }

  /** `re.split(r': | \| ', s)`: cut at each leftmost `": "` or `" | "`, trying `": "` first. */
  function SplitRule(s: string): (parts: seq<string>)
    ensures |parts| >= 1
  {
    SplitAt(s, 0)
  }

  /** The pieces of `s` when no separator starts before index `i`. */
  function SplitAt(s: string, i: nat): (parts: seq<string>)
    requires i <= |s|
    ensures |parts| >= 1
    decreases |s| - i
  {
    if i == |s| then [s]
    else if Py.OccursAt(s, ": ", i) then [s[..i]] + SplitAt(s[i + 2..], 0)
    else if Py.OccursAt(s, " | ", i) then [s[..i]] + SplitAt(s[i + 3..], 0)
    else SplitAt(s, i + 1)
  }

  /** Neither separator starts at a plain character followed by a character other than `|`. */
  lemma NoSeparatorAt(s: string, i: nat)
    requires i < |s| && Plain(s[i]) && (i + 1 < |s| ==> s[i + 1] != '|')
    ensures !Py.OccursAt(s, ": ", i) && !Py.OccursAt(s, " | ", i)
  {
    Py.NotOccursAt(s, ": ", i);
    if i + 3 <= |s| {
      assert s[i..i + 3][1] == s[i + 1];
    }
  }

  /** Text made of plain characters is a single piece. */
  lemma {:induction false} SplitAtPlain(s: string, i: nat)
    requires i <= |s| && forall j :: i <= j < |s| ==> Plain(s[j])
    ensures SplitAt(s, i) == [s]
    decreases |s| - i
  {
    if i < |s| {
      NoSeparatorAt(s, i);
      SplitAtPlain(s, i + 1);
    }
  }

  /** A plain piece followed by a separator is cut off first. */
  lemma {:induction false} SplitAtPiece(a: string, sep: string, b: string, i: nat)
    requires sep == ": " || sep == " | "
    requires i <= |a| && AllPlain(a)
    ensures SplitAt(a + sep + b, i) == [a] + SplitAt(b, 0)
    decreases |a| - i
  {
    var s := a + sep + b;
    if i < |a| {
      assert s[i] == a[i];
      assert s[i + 1] == if i + 1 < |a| then a[i + 1] else sep[0];
      NoSeparatorAt(s, i);
      SplitAtPiece(a, sep, b, i + 1);
    } else {
      assert s[..|a|] == a;
      assert s[|a| + |sep|..] == b;
      assert s[|a|..|a| + |sep|] == sep;
      if sep == " | " {
        assert s[|a|] == ' ';
        Py.NotOccursAt(s, ": ", |a|);
      }
    }
  }

  // ---------------------------------------------------------------- parse_rule

  /** `int(s)`, with the ValueError. */
  function Int(s: string): (r: Result<int>)
    ensures r.Ok? <==> Py.IntOfLine(s).Some?
    ensures r.Ok? ==> Py.IntOfLine(s) == Some(r.value)
  {
    match Py.IntOfLine(s)
    case None => Err("ValueError")
    case Some(v) => Ok(v)
  }

  /** `[int(x) for x in words]`. */
  function ParseIds(words: seq<string>): (r: Result<seq<int>>)
    ensures r.Ok? ==> |r.value| == |words|
  {
    if words == [] then Ok([])
    else
      var x :- Int(words[0]);
      var xs :- ParseIds(words[1..]);
      Ok([x] + xs)
  }

  /** `[[int(x) for x in s.split()] for s in pieces]`. */
  function ParseAlternatives(pieces: seq<string>): (r: Result<seq<seq<int>>>)
    ensures r.Ok? ==> |r.value| == |pieces|
  {
    if pieces == [] then Ok([])
    else
      var ids :- ParseIds(Py.SplitWhitespace(pieces[0]));
      var rest :- ParseAlternatives(pieces[1..]);
      Ok([ids] + rest)
  }

  /** The body of a rule as written: after a single `": "`, text whose first character is a quote is a literal. */
  function BodyAsWritten(splits: seq<string>): Result<RuleBody>
    requires |splits| >= 1
  {
    if |splits| == 2 && splits[1] == [] then Err("IndexError")
    else if |splits| == 2 && splits[1][0] == '"' then Ok(Literal(Py.Slice(splits[1], 1, -1)))
    else
      var alts :- ParseAlternatives(splits[1..]);
      Ok(Alternatives(alts))
  }

  /** The body of a rule as intended: a literal must start and end with a quote. */
  function Body(splits: seq<string>): Result<RuleBody>
    requires |splits| >= 1
  {
    if |splits| == 2 && splits[1] == [] then Err("IndexError")
    else if |splits| == 2 && splits[1][0] == '"' && splits[1][|splits[1]| - 1] == '"' then
      Ok(Literal(Py.Slice(splits[1], 1, -1)))
    else
      var alts :- ParseAlternatives(splits[1..]);
      Ok(Alternatives(alts))
  }

  /** `parse_rule` as written, with the unterminated-quote check of line 17. */
  function ParseRuleAsWritten(line: string): Result<(int, RuleBody)> {
    var splits := SplitRule(Py.RStrip(line));
    var body :- BodyAsWritten(splits);
    var n :- Int(splits[0]);
    Ok((n, body))
  }

  /** `parse_rule`, with the literal test corrected to look at the closing quote. */
  function ParseRule(line: string): Result<(int, RuleBody)> {
    var splits := SplitRule(Py.RStrip(line));
    var body :- Body(splits);
    var n :- Int(splits[0]);
    Ok((n, body))
  }

  // ---------------------------------------------------------------- rule text

  /** `str(x)`. */
  function IntText(x: int): string {
    if x < 0 then "-" + Py.NatToString(-x) else Py.NatToString(x)
  }

  /** The ids of a sequence separated by single spaces. */
  function SeqText(ids: seq<int>): string {
    if ids == [] then ""
    else if |ids| == 1 then IntText(ids[0])
    else IntText(ids[0]) + " " + SeqText(ids[1..])
  }

  /** The text of each sequence. */
  function SeqTexts(seqs: seq<seq<int>>): (r: seq<string>)
    ensures |r| == |seqs|
  {
    if seqs == [] then [] else [SeqText(seqs[0])] + SeqTexts(seqs[1..])
  }

  /** The alternatives separated by `" | "`. */
  function AltsText(seqs: seq<seq<int>>): string {
    Py.Join(SeqTexts(seqs), " | ")
  }

  function BodyText(b: RuleBody): string {
    match b
    case Literal(t) => "\"" + t + "\""
    case Alternatives(seqs) => AltsText(seqs)
  }

  /** A rule line, as the puzzle input writes it. */
  function RuleText(n: int, b: RuleBody): string {
    IntText(n) + ": " + BodyText(b)
  }

  /** The bodies whose text reads back: a literal without `:` or `|`, or non-empty alternatives of non-empty sequences. */
  predicate WellFormed(b: RuleBody) {
    match b
    case Literal(t) => AllPlain(t)
    case Alternatives(seqs) => seqs != [] && forall k :: 0 <= k < |seqs| ==> seqs[k] != []
  }

  /** The shape of an id's text: plain, without whitespace, a digit or `-` first and a digit last. */
  predicate IdShape(s: string) {
    s != [] && AllPlain(s) && Py.NoSpace(s) && Py.IsDigit(s[|s| - 1]) && (Py.IsDigit(s[0]) || s[0] == '-')
  }

  /** The shape of a sequence's text: plain, a digit or `-` first and a digit last. */
  predicate SeqShape(s: string) {
    s != [] && AllPlain(s) && Py.IsDigit(s[|s| - 1]) && (Py.IsDigit(s[0]) || s[0] == '-')
  }

  lemma IntTextShape(x: int)
    ensures IdShape(IntText(x))
  {
    var s := IntText(x);
    var d := Py.NatToString(if x < 0 then -x else x);
    assert forall j :: 0 <= j < |d| ==> Py.IsDigit(d[j]);
    if x < 0 {
      assert forall j :: 1 <= j < |s| ==> s[j] == d[j - 1];
    }
    assert Py.IsDigit(s[|s| - 1]);
  }

  /** `int(str(x))` gives back `x`. */
  lemma IntTextReads(x: int)
    ensures Int(IntText(x)) == Ok(x)
  {
    var s := IntText(x);
    IntTextShape(x);
    Py.StripUnchanged(s);
    if x < 0 {
      assert s[1..] == Py.NatToString(-x);
    } else {
      Py.ParseNatToString(x);
    }
  }

  /** Plain text stays plain when joined. */
  lemma AllPlainConcat(a: string, b: string)
    requires AllPlain(a) && AllPlain(b)
    ensures AllPlain(a + b)
  {
    assert forall j :: |a| <= j < |a + b| ==> (a + b)[j] == b[j - |a|];
  }

  /** Two texts of these shapes joined by a space. */
  lemma SpacedShape(w: string, t: string)
    requires SeqShape(w) && SeqShape(t)
    ensures SeqShape(w + " " + t)
  {
    AllPlainConcat(w, " ");
    AllPlainConcat(w + " ", t);
    var s := w + " " + t;
    assert s[0] == w[0];
    assert s[|s| - 1] == t[|t| - 1];
  }

  /** The text of a non-empty sequence. */
  lemma {:induction false} SeqTextShape(ids: seq<int>)
    requires ids != []
    ensures SeqShape(SeqText(ids))
  {
    IntTextShape(ids[0]);
    if |ids| > 1 {
      SeqTextShape(ids[1..]);
      SpacedShape(IntText(ids[0]), SeqText(ids[1..]));
    }
  }

  /** The texts of the ids. */
  function IdTexts(ids: seq<int>): (r: seq<string>)
    ensures |r| == |ids|
  {
    if ids == [] then [] else [IntText(ids[0])] + IdTexts(ids[1..])
  }

  lemma ParseIdsCons(w: string, ws: seq<string>, x: int, xs: seq<int>)
    requires Int(w) == Ok(x) && ParseIds(ws) == Ok(xs)
    ensures ParseIds([w] + ws) == Ok([x] + xs)
  {
    assert ([w] + ws)[0] == w && ([w] + ws)[1..] == ws;
  }

  /** `int()` reads each id back from its text. */
  lemma {:induction false} ParseIdTexts(ids: seq<int>)
    ensures ParseIds(IdTexts(ids)) == Ok(ids)
  {
    if ids != [] {
      var x, xs := ids[0], ids[1..];
      ParseIdTexts(xs);
      IntTextReads(x);
      IdTextsCons(ids, x, xs);
      ParseIdsCons(IntText(x), IdTexts(xs), x, xs);
    }
  }

  lemma IdTextsCons(ids: seq<int>, x: int, xs: seq<int>)
    requires ids != [] && x == ids[0] && xs == ids[1..]
    ensures IdTexts(ids) == [IntText(x)] + IdTexts(xs) && ids == [x] + xs
  {
  }

  /** A word, a space and more text: `split()` takes the word off first. */
  lemma SplitWordThen(w: string, t: string, words: seq<string>)
    requires IdShape(w) && SeqShape(t) && Py.SplitWhitespace(t) == words
    ensures Py.SplitWhitespace(w + " " + t) == [w] + words
  {
    assert w + " " + t == w + (" " + t);
    Py.SplitWhitespaceWord(w, " " + t);
    assert (" " + t)[1..] == t;
    assert !Py.IsSpaceChar(t[0]);
    assert Py.LStrip(" " + t) == t;
    Py.SplitWhitespaceLStrip(" " + t);
  }

  /** `s.split()` of a sequence's text gives its ids' texts. */
  lemma {:induction false} SplitSeqText(ids: seq<int>)
    requires ids != []
    ensures Py.SplitWhitespace(SeqText(ids)) == IdTexts(ids)
  {
    var w := IntText(ids[0]);
    IntTextShape(ids[0]);
    if |ids| == 1 {
      Py.SplitWhitespaceOne(w);
    } else {
      SeqTextShape(ids[1..]);
      SplitSeqText(ids[1..]);
      SplitWordThen(w, SeqText(ids[1..]), IdTexts(ids[1..]));
    }
  }

  /** `int()` reads the ids of a sequence back from its text. */
  lemma ParseSeqText(ids: seq<int>)
    requires ids != []
    ensures ParseIds(Py.SplitWhitespace(SeqText(ids))) == Ok(ids)
  {
    SplitSeqText(ids);
    ParseIdTexts(ids);
  }

  /** The alternatives' text splits into the sequences' texts. */
  lemma {:induction false} SplitAltsText(seqs: seq<seq<int>>)
    requires seqs != [] && forall k :: 0 <= k < |seqs| ==> seqs[k] != []
    ensures SplitAt(AltsText(seqs), 0) == SeqTexts(seqs)
  {
    SeqTextShape(seqs[0]);
    var a := SeqText(seqs[0]);
    if |seqs| == 1 {
      SplitAtPlain(a, 0);
    } else {
      var rest := seqs[1..];
      assert SeqTexts(seqs) == [a] + SeqTexts(rest);
      assert SeqTexts(seqs)[1..] == SeqTexts(rest);
      SplitAtPiece(a, " | ", AltsText(rest), 0);
      SplitAltsText(rest);
    }
  }

  lemma ParseAlternativesCons(p: string, ps: seq<string>, ids: seq<int>, rest: seq<seq<int>>)
    requires ParseIds(Py.SplitWhitespace(p)) == Ok(ids) && ParseAlternatives(ps) == Ok(rest)
    ensures ParseAlternatives([p] + ps) == Ok([ids] + rest)
  {
    assert ([p] + ps)[0] == p && ([p] + ps)[1..] == ps;
  }

  /** `int()` reads the sequences back from their texts. */
  lemma {:induction false} ParseSeqTexts(seqs: seq<seq<int>>)
    requires forall k :: 0 <= k < |seqs| ==> seqs[k] != []
    ensures ParseAlternatives(SeqTexts(seqs)) == Ok(seqs)
  {
    if seqs != [] {
      var x, xs := seqs[0], seqs[1..];
      ParseSeqText(x);
      ParseSeqTexts(xs);
      SeqTextsCons(seqs, x, xs);
      ParseAlternativesCons(SeqText(x), SeqTexts(xs), x, xs);
    }
  }

  lemma SeqTextsCons(seqs: seq<seq<int>>, x: seq<int>, xs: seq<seq<int>>)
    requires seqs != [] && x == seqs[0] && xs == seqs[1..]
    ensures SeqTexts(seqs) == [SeqText(x)] + SeqTexts(xs) && seqs == [x] + xs
  {
    assert SeqTexts(seqs) == [SeqText(seqs[0])] + SeqTexts(seqs[1..]);
    assert seqs == [seqs[0]] + seqs[1..];
  }

  /** The shape of the alternatives' text: a digit or `-` first and a digit last. */
  predicate AltsShape(s: string) {
    s != [] && Py.IsDigit(s[|s| - 1]) && (Py.IsDigit(s[0]) || s[0] == '-')
  }

  lemma {:induction false} AltsTextShape(seqs: seq<seq<int>>)
    requires seqs != [] && forall k :: 0 <= k < |seqs| ==> seqs[k] != []
    ensures AltsShape(AltsText(seqs))
  {
    SeqTextShape(seqs[0]);
    if |seqs| > 1 {
      var rest := seqs[1..];
      assert SeqTexts(seqs)[1..] == SeqTexts(rest);
      AltsTextShape(rest);
      BarredShape(SeqText(seqs[0]), AltsText(rest));
    }
  }

  /** A sequence's text and more alternatives joined by `" | "`. */
  lemma BarredShape(a: string, t: string)
    requires SeqShape(a) && AltsShape(t)
    ensures AltsShape(a + " | " + t)
  {
    var s := a + " | " + t;
    assert s[0] == a[0];
    assert s[|s| - 1] == t[|t| - 1];
  }

  /** The steps of `parse_rule`, given the pieces of the line. */
  lemma ParseRuleFromSplits(line: string, splits: seq<string>, n: int, b: RuleBody)
    requires SplitRule(Py.RStrip(line)) == splits && |splits| >= 1
    requires Body(splits) == Ok(b) && Int(splits[0]) == Ok(n)
    ensures ParseRule(line) == Ok((n, b))
  {
  }

  /** A literal rule reads back from its text. */
  lemma ParseLiteralText(n: int, t: string)
    requires AllPlain(t)
    ensures ParseRule(RuleText(n, Literal(t))) == Ok((n, Literal(t)))
  {
    var w, body := IntText(n), "\"" + t + "\"";
    LiteralSplits(n, t);
    LiteralBody(w, t);
    IntTextReads(n);
    ParseRuleFromSplits(RuleText(n, Literal(t)), [w, body], n, Literal(t));
  }

  lemma LiteralSplits(n: int, t: string)
    requires AllPlain(t)
    ensures SplitRule(Py.RStrip(RuleText(n, Literal(t)))) == [IntText(n), "\"" + t + "\""]
  {
    var w, body := IntText(n), "\"" + t + "\"";
    var s := w + ": " + body;
    assert s == RuleText(n, Literal(t));
    IntTextShape(n);
    QuotedPlain(t);
    SplitAtPiece(w, ": ", body, 0);
    SplitAtPlain(body, 0);
    assert s[|s| - 1] == '"';
    Py.RStripUnchanged(s);
  }

  lemma QuotedPlain(t: string)
    requires AllPlain(t)
    ensures AllPlain("\"" + t + "\"")
  {
    AllPlainConcat("\"", t);
    AllPlainConcat("\"" + t, "\"");
  }

  lemma LiteralBody(w: string, t: string)
    ensures Body([w, "\"" + t + "\""]) == Ok(Literal(t))
  {
    var body := "\"" + t + "\"";
    assert body[0] == '"' && body[|body| - 1] == '"';
    assert Py.Slice(body, 1, -1) == body[1..|body| - 1] == t;
  }

  /** A rule of alternatives reads back from its text. */
  lemma ParseAltsText(n: int, seqs: seq<seq<int>>)
    requires seqs != [] && forall k :: 0 <= k < |seqs| ==> seqs[k] != []
    ensures ParseRule(RuleText(n, Alternatives(seqs))) == Ok((n, Alternatives(seqs)))
  {
    var w, pieces := IntText(n), SeqTexts(seqs);
    IntTextReads(n);
    AltsSplits(n, seqs);
    ParseSeqTexts(seqs);
    assert pieces[0] == SeqText(seqs[0]);
    SeqTextShape(seqs[0]);
    AltsBody(w, pieces, seqs);
    ParseRuleFromSplits(RuleText(n, Alternatives(seqs)), [w] + pieces, n, Alternatives(seqs));
  }

  /** Pieces that are not one quoted text make a body of alternatives. */
  lemma AltsBody(w: string, pieces: seq<string>, seqs: seq<seq<int>>)
    requires pieces != [] && SeqShape(pieces[0]) && ParseAlternatives(pieces) == Ok(seqs)
    ensures Body([w] + pieces) == Ok(Alternatives(seqs))
  {
    var splits := [w] + pieces;
    assert splits[1..] == pieces;
    assert splits[1] == pieces[0];
  }

  lemma AltsSplits(n: int, seqs: seq<seq<int>>)
    requires seqs != [] && forall k :: 0 <= k < |seqs| ==> seqs[k] != []
    ensures SplitRule(Py.RStrip(RuleText(n, Alternatives(seqs)))) == [IntText(n)] + SeqTexts(seqs)
  {
    IntTextShape(n);
    AltsTextShape(seqs);
    SplitAltsText(seqs);
    PiecesAfterNumber(IntText(n), AltsText(seqs), SeqTexts(seqs));
  }

  /** A number, `": "` and alternatives: the number, then the alternatives' pieces. */
  lemma PiecesAfterNumber(w: string, body: string, pieces: seq<string>)
    requires IdShape(w) && AltsShape(body) && SplitAt(body, 0) == pieces
    ensures SplitRule(Py.RStrip(w + ": " + body)) == [w] + pieces
  {
    var s := w + ": " + body;
    SplitAtPiece(w, ": ", body, 0);
    assert s[|s| - 1] == body[|body| - 1];
    Py.RStripUnchanged(s);
  }

  /** A well-formed rule reads back from its text. */
  lemma ParseRuleText(n: int, b: RuleBody)
    requires WellFormed(b)
    ensures ParseRule(RuleText(n, b)) == Ok((n, b))
  {
    match b
    case Literal(t) => ParseLiteralText(n, t);
    case Alternatives(seqs) => ParseAltsText(n, seqs);
  }

  /** The text of a rule does not end in whitespace. */
  lemma RuleTextEnd(n: int, b: RuleBody)
    requires WellFormed(b)
    ensures var s := RuleText(n, b); s != [] && !Py.IsSpaceChar(s[|s| - 1])
  {
    var body := BodyText(b);
    match b
    case Literal(t) =>
      assert body[|body| - 1] == '"';
      LastOfRule(IntText(n), body, '"');
    case Alternatives(seqs) =>
      AltsTextShape(seqs);
      LastOfRule(IntText(n), body, body[|body| - 1]);
  }

  lemma LastOfRule(w: string, body: string, c: char)
    requires body != [] && body[|body| - 1] == c && !Py.IsSpaceChar(c)
    ensures var s := w + ": " + body; s != [] && s[|s| - 1] == c && !Py.IsSpaceChar(s[|s| - 1])
  {
    var s := w + ": " + body;
    assert s[|s| - 1] == body[|body| - 1];
  }

  /** With its newline, as read from a file, the line reads back the same. */
  lemma ParseRuleLine(n: int, b: RuleBody)
    requires WellFormed(b)
    ensures ParseRule(RuleText(n, b) + "\n") == Ok((n, b))
  {
    var s := RuleText(n, b);
    ParseRuleText(n, b);
    RuleTextEnd(n, b);
    Py.RStripUnchanged(s);
    Py.RStripNewline(s);
  }

  /** The corrected parser reads a literal exactly when the body after a single `": "` is quoted at both ends. */
  lemma ParseLiteralIff(line: string)
    requires ParseRule(line).Ok?
    ensures var splits := SplitRule(Py.RStrip(line));
      ParseRule(line).value.1.Literal? <==>
        |splits| == 2 && |splits[1]| >= 1 && splits[1][0] == '"' && splits[1][|splits[1]| - 1] == '"'
  {
  }

  /** The pieces are a number and a body that opens a quote and does not close it. */
  predicate Unclosed(splits: seq<string>) {
    |splits| == 2 && |splits[1]| >= 1 && splits[1][0] == '"' && splits[1][|splits[1]| - 1] != '"'
  }

  /** The two parsers differ only on a body after a single `": "` that opens a quote and does not close it. */
  lemma AsWrittenDiffers(line: string)
    requires ParseRuleAsWritten(line) != ParseRule(line)
    ensures var splits := SplitRule(Py.RStrip(line));
      Unclosed(splits)
  {
    var splits := SplitRule(Py.RStrip(line));
    SameBodies(line, splits);
    BodiesDiffer(splits);
  }

  /** Both parsers read the number the same way, so equal bodies give equal parses. */
  lemma SameBodies(line: string, splits: seq<string>)
    requires splits == SplitRule(Py.RStrip(line))
    ensures BodyAsWritten(splits) == Body(splits) ==> ParseRuleAsWritten(line) == ParseRule(line)
  {
  }

  lemma BodiesDiffer(splits: seq<string>)
    requires |splits| >= 1 && BodyAsWritten(splits) != Body(splits)
    ensures Unclosed(splits)
  {
  }

  /** Where a body is not an unclosed quote, the code as written and the corrected parser agree. */
  lemma AsWrittenAgrees(line: string)
    ensures var splits := SplitRule(Py.RStrip(line));
      !Unclosed(splits) ==>
        ParseRuleAsWritten(line) == ParseRule(line)
  {
    if ParseRuleAsWritten(line) != ParseRule(line) {
      AsWrittenDiffers(line);
    }
  }

  /** The text of a well-formed rule has no unclosed quote. */
  lemma RuleTextClosed(n: int, b: RuleBody)
    requires WellFormed(b)
    ensures var splits := SplitRule(Py.RStrip(RuleText(n, b)));
      !Unclosed(splits)
  {
    match b
    case Literal(t) =>
      LiteralSplits(n, t);
      var body := "\"" + t + "\"";
      assert body[|body| - 1] == '"';
      assert [IntText(n), body][1] == body;
    case Alternatives(seqs) =>
      AltsSplits(n, seqs);
      var splits := [IntText(n)] + SeqTexts(seqs);
      assert splits[1] == SeqText(seqs[0]);
      SeqTextShape(seqs[0]);
  }

  /** The code as written also reads a well-formed rule back from its text. */
  lemma AsWrittenRuleText(n: int, b: RuleBody)
    requires WellFormed(b)
    ensures ParseRuleAsWritten(RuleText(n, b)) == Ok((n, b))
  {
    ParseRuleText(n, b);
    RuleTextClosed(n, b);
    AsWrittenAgrees(RuleText(n, b));
  }

  /**
   * The code as written reads a literal exactly when the body after a
   * single `": "` starts with a quote, and the literal is that body without
   * its first and last characters (empty for a lone quote).
   */
  lemma AsWrittenLiteralIff(line: string)
    requires ParseRuleAsWritten(line).Ok?
    ensures var splits := SplitRule(Py.RStrip(line));
      ParseRuleAsWritten(line).value.1.Literal? <==> |splits| == 2 && |splits[1]| >= 1 && splits[1][0] == '"'
    ensures var splits, b := SplitRule(Py.RStrip(line)), ParseRuleAsWritten(line).value.1;
      b.Literal? ==> b.text == if |splits[1]| >= 2 then splits[1][1..|splits[1]| - 1] else []
  {
  }

  /** A line whose literal is not closed: the code as written reads the empty literal, the corrected one rejects it. */
  lemma UnclosedQuote(line: string)
    requires line == "0: \"a"
    ensures ParseRuleAsWritten(line) == Ok((0, Literal("")))
    ensures ParseRule(line) == Err("ValueError")
  {
    var splits := ["0", "\"a"];
    UnclosedSplits(line);
    UnclosedBodies(splits);
    assert Int("0") == Ok(0) by {
      IntTextReads(0);
      assert IntText(0) == "0";
    }
  }

  lemma UnclosedSplits(line: string)
    requires line == "0: \"a"
    ensures SplitRule(Py.RStrip(line)) == ["0", "\"a"]
  {
    var body := "\"a";
    assert line == "0" + ": " + body;
    SplitAtPlain(body, 0);
    SplitAtPiece("0", ": ", body, 0);
    Py.RStripUnchanged(line);
  }

  lemma UnclosedBodies(splits: seq<string>)
    requires splits == ["0", "\"a"]
    ensures BodyAsWritten(splits) == Ok(Literal(""))
    ensures Body(splits) == Err("ValueError")
  {
    var body := "\"a";
    assert splits[1] == body && splits[1..] == [body];
    QuotedAsWritten(splits, body);
    UnclosedSlice(body);
    UnclosedNotInt(body);
    UnclosedAlternatives(body);
    UnclosedBody(splits, body);
  }

  lemma QuotedAsWritten(splits: seq<string>, body: string)
    requires |splits| == 2 && splits[1] == body && |body| >= 1 && body[0] == '"'
    ensures BodyAsWritten(splits) == Ok(Literal(Py.Slice(body, 1, -1)))
  {
  }

  lemma UnclosedSlice(body: string)
    requires body == "\"a"
    ensures Py.Slice(body, 1, -1) == ""
  {
  }

  lemma UnclosedBody(splits: seq<string>, body: string)
    requires |splits| == 2 && splits[1] == body && |body| >= 1 && body[|body| - 1] != '"'
    requires splits[1..] == [body] && ParseAlternatives([body]) == Err("ValueError")
    ensures Body(splits) == Err("ValueError")
  {
  }

  lemma UnclosedNotInt(body: string)
    requires body == "\"a"
    ensures Int(body) == Err("ValueError")
  {
    assert Py.Strip(body) == body;
    assert Py.ParseInt(body) == None by {
      assert !Py.IsDigit(body[0]);
    }
  }

  lemma UnclosedAlternatives(body: string)
    requires Int(body) == Err("ValueError") && body == "\"a"
    ensures ParseAlternatives([body]) == Err("ValueError")
  {
    Py.SplitWhitespaceOne(body);
    assert [body][0] == body;
    assert ParseIds([body]) == Err("ValueError");
  }

  // ---------------------------------------------------------------- message_matches_rule / message_matches_sequence

  /** Entering one more rule leaves fewer rules to enter. */
  lemma FewerUnvisited(keys: set<int>, visited: set<int>, id: int)
    requires id in keys && id !in visited
    ensures |keys - (visited + {id})| < |keys - visited|
  {
    assert keys - visited == (keys - (visited + {id})) + {id};
  }

  /**
   * `message_matches_rule` without its cache. `visited` holds the rules
   * being matched against this same message further up the call stack:
   * entering one of them again would recurse without end, which Python
   * ends with a RecursionError.
   */
  function MatchRule(rules: Rules, m: string, id: int, visited: set<int>): Result<bool>
    decreases |m|, |rules.Keys - visited|, 0, 0
  {
    if id !in rules then Err("KeyError")
    else match rules[id]
      case Literal(t) => Ok(m == t)
      case Alternatives(seqs) =>
        if id in visited then Err("RecursionError")
        else
          FewerUnvisited(rules.Keys, visited, id);
          MatchAny(rules, m, seqs, visited + {id})
  }

  /** `any(message_matches_sequence(m, ..., s) for s in seqs)`: stops at the first match or the first failure. */
  function MatchAny(rules: Rules, m: string, seqs: seq<seq<int>>, visited: set<int>): Result<bool>
    decreases |m|, |rules.Keys - visited|, 2, |seqs|
  {
    if seqs == [] then Ok(false)
    else
      var b :- MatchSeq(rules, m, seqs[0], visited);
      if b then Ok(true) else MatchAny(rules, m, seqs[1..], visited)
  }

  /** `message_matches_sequence` without its cache. */
  function MatchSeq(rules: Rules, m: string, sequence: seq<int>, visited: set<int>): Result<bool>
    decreases |m|, |rules.Keys - visited|, 1, 0
  {
    if |sequence| == 1 then MatchRule(rules, m, sequence[0], visited)
    else SplitLoop(rules, m, sequence, 0)
  }

  /** The loop over the split points of `m`, from head length `i + 1` on; both parts are shorter than `m`. */
  function SplitLoop(rules: Rules, m: string, sequence: seq<int>, i: nat): Result<bool>
    decreases |m|, 0, 0, |m| - i
  {
    if i + 1 >= |m| then Ok(false)
    else if |m| - (i + 1) < |sequence| - 1 then Ok(false)
    else if sequence == [] then Err("IndexError")
    else
      var head :- MatchRule(rules, m[..i + 1], sequence[0], {});
      if !head then SplitLoop(rules, m, sequence, i + 1)
      else
        var rest :- MatchSeq(rules, m[i + 1..], sequence[1..], {});
        if rest then Ok(true) else SplitLoop(rules, m, sequence, i + 1)
  }

  /** A literal rule matches exactly the equal message. */
  lemma MatchLiteral(rules: Rules, m: string, id: int, visited: set<int>)
    requires id in rules && rules[id].Literal?
    ensures MatchRule(rules, m, id, visited) == Ok(m == rules[id].text)
  {
  }

  /**
   * `any` over the alternatives: a match when some sequence matches and the
   * ones before it do not, no match when none does.
   */
  lemma {:induction false} MatchAnyIff(rules: Rules, m: string, seqs: seq<seq<int>>, visited: set<int>)
    ensures MatchAny(rules, m, seqs, visited) == Ok(true) <==>
      exists k :: 0 <= k < |seqs| && MatchSeq(rules, m, seqs[k], visited) == Ok(true) &&
        forall j :: 0 <= j < k ==> MatchSeq(rules, m, seqs[j], visited) == Ok(false)
    ensures MatchAny(rules, m, seqs, visited) == Ok(false) <==>
      forall k :: 0 <= k < |seqs| ==> MatchSeq(rules, m, seqs[k], visited) == Ok(false)
  {
    if seqs != [] {
      var rest := seqs[1..];
      MatchAnyIff(rules, m, rest, visited);
      assert forall k :: 1 <= k < |seqs| ==> seqs[k] == rest[k - 1];
      var first := MatchSeq(rules, m, seqs[0], visited);
      if first == Ok(false) {
        if MatchAny(rules, m, rest, visited) == Ok(true) {
          var k :| 0 <= k < |rest| && MatchSeq(rules, m, rest[k], visited) == Ok(true) &&
            forall j :: 0 <= j < k ==> MatchSeq(rules, m, rest[j], visited) == Ok(false);
          assert MatchSeq(rules, m, seqs[k + 1], visited) == Ok(true);
        }
      }
    }
  }

  /** A rule of alternatives matches when one of its sequences does, the ones before it not matching. */
  lemma AlternativesMatch(rules: Rules, m: string, id: int)
    requires id in rules && rules[id].Alternatives?
    ensures var seqs := rules[id].seqs;
      MatchRule(rules, m, id, {}) == Ok(true) <==>
        exists k :: 0 <= k < |seqs| && MatchSeq(rules, m, seqs[k], {id}) == Ok(true) &&
          forall j :: 0 <= j < k ==> MatchSeq(rules, m, seqs[j], {id}) == Ok(false)
  {
    assert {} + {id} == {id};
    MatchAnyIff(rules, m, rules[id].seqs, {id});
  }

  /** The head `m[..k]` matches the first id and the non-empty rest `m[k..]` matches the others. */
  predicate SplitMatches(rules: Rules, m: string, sequence: seq<int>, k: int) {
    |sequence| >= 1 && 1 <= k < |m| &&
    MatchRule(rules, m[..k], sequence[0], {}) == Ok(true) &&
    MatchSeq(rules, m[k..], sequence[1..], {}) == Ok(true)
  }

  /** A match found by the loop is a split point. */
  lemma {:induction false} LoopTrue(rules: Rules, m: string, sequence: seq<int>, i: nat)
    requires SplitLoop(rules, m, sequence, i) == Ok(true)
    ensures exists k :: i + 1 <= k && SplitMatches(rules, m, sequence, k)
    decreases |m| - i
  {
    var head := MatchRule(rules, m[..i + 1], sequence[0], {});
    if head == Ok(true) && MatchSeq(rules, m[i + 1..], sequence[1..], {}) == Ok(true) {
      assert SplitMatches(rules, m, sequence, i + 1);
    } else {
      LoopTrue(rules, m, sequence, i + 1);
    }
  }

  /** A sequence of two or more ids matches only messages at least as long as itself. */
  lemma {:induction false} MatchLength(rules: Rules, m: string, sequence: seq<int>, visited: set<int>)
    requires |sequence| >= 2 && MatchSeq(rules, m, sequence, visited) == Ok(true)
    ensures |m| >= |sequence|
    decreases |m|
  {
    LoopTrue(rules, m, sequence, 0);
    var k :| 1 <= k && SplitMatches(rules, m, sequence, k);
    if |sequence| > 2 {
      MatchLength(rules, m[k..], sequence[1..], {});
    }
  }

  /** No match from the loop: no split point from head length `i + 1` on. */
  lemma {:induction false} LoopFalse(rules: Rules, m: string, sequence: seq<int>, i: nat)
    requires |sequence| >= 2 && SplitLoop(rules, m, sequence, i) == Ok(false)
    ensures forall k :: i + 1 <= k ==> !SplitMatches(rules, m, sequence, k)
    decreases |m| - i
  {
    if i + 1 >= |m| {
    } else if |m| - (i + 1) < |sequence| - 1 {
      forall k | i + 1 <= k && SplitMatches(rules, m, sequence, k)
        ensures false
      {
        if |sequence| > 2 {
          MatchLength(rules, m[k..], sequence[1..], {});
        }
      }
    } else {
      LoopFalse(rules, m, sequence, i + 1);
    }
  }

  /**
   * A sequence of two or more ids, when matching does not fail, matches
   * exactly when some split into a non-empty head and a non-empty rest
   * matches the first id and the other ids.
   */
  lemma SequenceMatchIff(rules: Rules, m: string, sequence: seq<int>, visited: set<int>)
    requires |sequence| >= 2 && MatchSeq(rules, m, sequence, visited).Ok?
    ensures MatchSeq(rules, m, sequence, visited).value <==> exists k :: SplitMatches(rules, m, sequence, k)
  {
    if MatchSeq(rules, m, sequence, visited).value {
      LoopTrue(rules, m, sequence, 0);
    } else {
      LoopFalse(rules, m, sequence, 0);
    }
  }

  // ---------------------------------------------------------------- the caches

  /**
   * A rank that falls along every alternative made of a single id: such an
   * alternative matches the same message against another rule, so these
   * rules cannot lead back to themselves on one message.
   */
  predicate Ranked(rules: Rules, rank: int -> nat) {
    forall id, k :: id in rules && rules[id].Alternatives? && 0 <= k < |rules[id].seqs| && |rules[id].seqs[k]| == 1 ==>
      rank(rules[id].seqs[k][0]) < rank(id)
  }

  /** Every rule entered has at least the given rank. */
  predicate RankAtLeast(rank: int -> nat, visited: set<int>, bound: nat) {
    forall x :: x in visited ==> rank(x) >= bound
  }

  /** The single-id alternatives among `seqs` go to ranks below `bound`. */
  predicate UnitsBelow(rank: int -> nat, seqs: seq<seq<int>>, bound: nat) {
    forall k :: 0 <= k < |seqs| && |seqs[k]| == 1 ==> rank(seqs[k][0]) < bound
  }

  /** With ranked rules, the rules entered above a rule of lower rank make no difference. */
  lemma {:induction false} RuleIndependent(rules: Rules, rank: int -> nat, m: string, id: int, v1: set<int>, v2: set<int>)
    requires Ranked(rules, rank)
    requires RankAtLeast(rank, v1, rank(id) + 1) && RankAtLeast(rank, v2, rank(id) + 1)
    ensures MatchRule(rules, m, id, v1) == MatchRule(rules, m, id, v2)
    decreases rank(id), 2, 0
  {
    if id in rules && rules[id].Alternatives? {
      var seqs := rules[id].seqs;
      assert UnitsBelow(rank, seqs, rank(id));
      AnyIndependent(rules, rank, m, seqs, v1 + {id}, v2 + {id}, rank(id));
    }
  }

  lemma {:induction false} AnyIndependent(rules: Rules, rank: int -> nat, m: string, seqs: seq<seq<int>>, v1: set<int>, v2: set<int>, bound: nat)
    requires Ranked(rules, rank) && UnitsBelow(rank, seqs, bound)
    requires RankAtLeast(rank, v1, bound) && RankAtLeast(rank, v2, bound)
    ensures MatchAny(rules, m, seqs, v1) == MatchAny(rules, m, seqs, v2)
    decreases bound, 1, |seqs|
  {
    if seqs != [] {
      SeqIndependent(rules, rank, m, seqs[0], v1, v2, bound);
      assert UnitsBelow(rank, seqs[1..], bound) by {
        assert forall k :: 0 <= k < |seqs| - 1 ==> seqs[1..][k] == seqs[k + 1];
      }
      AnyIndependent(rules, rank, m, seqs[1..], v1, v2, bound);
    }
  }

  lemma {:induction false} SeqIndependent(rules: Rules, rank: int -> nat, m: string, sequence: seq<int>, v1: set<int>, v2: set<int>, bound: nat)
    requires Ranked(rules, rank) && (|sequence| == 1 ==> rank(sequence[0]) < bound)
    requires RankAtLeast(rank, v1, bound) && RankAtLeast(rank, v2, bound)
    ensures MatchSeq(rules, m, sequence, v1) == MatchSeq(rules, m, sequence, v2)
    decreases bound, 0, 0
  {
    if |sequence| == 1 {
      RuleIndependent(rules, rank, m, sequence[0], v1, v2);
    }
  }

  /** The measure that decreases from a sequence to the rule it matches on the same message. */
  function SeqMeasure(sequence: seq<int>, rank: int -> nat): nat {
    if |sequence| == 1 then rank(sequence[0]) + 1 else 0
  }

  /**
   * The `rules` dict with the two caches `message_matches_rule` and
   * `message_matches_sequence` fill in, keyed by message and rule id or
   * message and sequence.
   */
  class Matcher {
    var rules: Rules
    var ruleCache: map<(string, int), bool>
    var sequenceCache: map<(string, seq<int>), bool>

    /** Every cached answer is the one computed without caches. */
    predicate CacheValid()
      reads this
    {
      (forall key :: key in ruleCache ==> MatchRule(rules, key.0, key.1, {}) == Ok(ruleCache[key])) &&
      (forall key :: key in sequenceCache ==> MatchSeq(rules, key.0, key.1, {}) == Ok(sequenceCache[key]))
    }

    /** Empty caches, as each top-level call passes `{}, {}`. */
    constructor(rules: Rules)
      ensures this.rules == rules && ruleCache == map[] && sequenceCache == map[]
      ensures CacheValid()
    {
      this.rules := rules;
      ruleCache := map[];
      sequenceCache := map[];
    }

    /** `message_matches_rule`: the cached answer, or the computed one, which is then cached. */
    method MatchesRule(m: string, id: int, ghost rank: int -> nat) returns (r: Result<bool>)
      requires Ranked(rules, rank) && CacheValid()
      modifies this
      ensures rules == old(rules) && CacheValid()
      ensures r == MatchRule(rules, m, id, {})
      decreases |m|, rank(id), 1
    {
      if (m, id) in ruleCache {
        return Ok(ruleCache[(m, id)]);
      }
      if id !in rules {
        return Err("KeyError");
      }
      var result: bool;
      match rules[id] {
        case Literal(t) =>
          result := m == t;
        case Alternatives(seqs) =>
          assert {} + {id} == {id};
          assert UnitsBelow(rank, seqs, rank(id));
          var i := 0;
          result := false;
          while i < |seqs| && !result
            invariant 0 <= i <= |seqs|
            invariant rules == old(rules) && CacheValid()
            invariant MatchRule(rules, m, id, {}) == if result then Ok(true) else MatchAny(rules, m, seqs[i..], {id})
            decreases |seqs| - i, if result then 0 else 1
          {
            assert seqs[i..][0] == seqs[i] && seqs[i..][1..] == seqs[i + 1..];
            assert |seqs[i]| == 1 ==> rank(seqs[i][0]) < rank(id);
            var s := MatchesSequence(m, seqs[i], rank);
            SeqIndependent(rules, rank, m, seqs[i], {id}, {}, rank(id));
            if s.Err? {
              return Err(s.msg);
            }
            if s.value {
              result := true;
            } else {
              i := i + 1;
            }
          }
      }
      ruleCache := ruleCache[(m, id) := result];
      return Ok(result);
    }

    /** `message_matches_sequence`: the cached answer, or the computed one, which is then cached. */
    method MatchesSequence(m: string, sequence: seq<int>, ghost rank: int -> nat) returns (r: Result<bool>)
      requires Ranked(rules, rank) && CacheValid()
      modifies this
      ensures rules == old(rules) && CacheValid()
      ensures r == MatchSeq(rules, m, sequence, {})
      decreases |m|, SeqMeasure(sequence, rank), 0
    {
      if (m, sequence) in sequenceCache {
        return Ok(sequenceCache[(m, sequence)]);
      }
      var result := false;
      if |sequence| == 1 {
        r := MatchesRule(m, sequence[0], rank);
        if r.Err? {
          return;
        }
        result := r.value;
      } else {
        var i := 0;
        var done := false;
        while i + 1 < |m| && !done
          invariant rules == old(rules) && CacheValid()
          invariant !done ==> !result
          invariant MatchSeq(rules, m, sequence, {}) == if done then Ok(result) else SplitLoop(rules, m, sequence, i)
          decreases |m| - i, if done then 0 else 1
        {
          if |m| - (i + 1) < |sequence| - 1 {
            result := false;
            done := true;
          } else {
            if sequence == [] {
              return Err("IndexError");
            }
            var head := MatchesRule(m[..i + 1], sequence[0], rank);
            if head.Err? {
              return Err(head.msg);
            }
            if head.value {
              var rest := MatchesSequence(m[i + 1..], sequence[1..], rank);
              if rest.Err? {
                return Err(rest.msg);
              }
              if rest.value {
                result := true;
                done := true;
              }
            }
            if !done {
              i := i + 1;
            }
          }
        }
      }
      assert MatchSeq(rules, m, sequence, {}) == Ok(result);
      sequenceCache := sequenceCache[(m, sequence) := result];
      return Ok(result);
    }
  }

  /** A top-level call `message_matches_rule(m, rules, 0, {}, {})` gives the uncached answer. */
  method MessageMatches(rules: Rules, m: string, ghost rank: int -> nat) returns (r: Result<bool>)
    requires Ranked(rules, rank)
    ensures r == MatchRule(rules, m, 0, {})
  {
    var matcher := new Matcher(rules);
    r := matcher.MatchesRule(m, 0, rank);
  }

  // ---------------------------------------------------------------- parse_input

  /** A rule line's outcome: blank, or what `parse_rule` makes of it. */
  datatype Line = Blank | RuleLine(rule: Result<(int, RuleBody)>)

  /** Which reading of `parse_rule`'s literal test a parse follows: the code as written, or the intended one. */
  datatype Reading = AsWritten | Corrected

  function ParseRuleBy(reading: Reading, line: string): Result<(int, RuleBody)> {
    match reading
    case AsWritten => ParseRuleAsWritten(line)
    case Corrected => ParseRule(line)
  }

  /** The outcome of each line, as `parse_input`'s loop sees it. */
  function LinesOf(reading: Reading, lines: seq<string>): (r: seq<Line>)
    ensures |r| == |lines|
    ensures forall j :: 0 <= j < |lines| ==> r[j] == if Py.IsSpace(lines[j]) then Blank else RuleLine(ParseRuleBy(reading, lines[j]))
  {
    seq(|lines|, j requires 0 <= j < |lines| => if Py.IsSpace(lines[j]) then Blank else RuleLine(ParseRuleBy(reading, lines[j])))
  }

  /** The rules read from `ls[i..]` on top of `acc`, and the index where the messages start. */
  function ReadRules(ls: seq<Line>, i: nat, acc: Rules): (res: Result<(Rules, nat)>)
    requires i <= |ls|
    ensures res.Ok? ==> i <= res.value.1 <= |ls|
    decreases |ls| - i
  {
    if i == |ls| then Ok((acc, i))
    else if ls[i].Blank? then Ok((acc, i + 1))
    else
      var rule :- ls[i].rule;
      if rule.0 in acc then Err("AssertionError") else ReadRules(ls, i + 1, acc[rule.0 := rule.1])
  }

  /** `[line.rstrip() for line in lines]`. */
  function RStripAll(lines: seq<string>): (r: seq<string>)
    ensures |r| == |lines| && forall j :: 0 <= j < |lines| ==> r[j] == Py.RStrip(lines[j])
  {
    seq(|lines|, j requires 0 <= j < |lines| => Py.RStrip(lines[j]))
  }

  /** `parse_input`: rules up to a blank line, then the messages. */
  function ParseInput(reading: Reading, lines: seq<string>): Result<Input> {
    var read :- ReadRules(LinesOf(reading, lines), 0, map[]);
    Ok(Input(read.0, RStripAll(lines[read.1..])))
  }

  /** One turn of `parse_input`'s loop on a rule line. */
  lemma ReadRulesStep(ls: seq<Line>, i: nat, acc: Rules, rule: Result<(int, RuleBody)>)
    requires i < |ls| && ls[i] == RuleLine(rule)
    ensures rule.Err? ==> ReadRules(ls, i, acc) == Err(rule.msg)
    ensures rule.Ok? && rule.value.0 in acc ==> ReadRules(ls, i, acc) == Err("AssertionError")
    ensures rule.Ok? && rule.value.0 !in acc ==> ReadRules(ls, i, acc) == ReadRules(ls, i + 1, acc[rule.value.0 := rule.value.1])
  {
  }

  /** The end of `parse_input`'s loop: a blank line or the end of the file. */
  lemma ReadRulesEnd(ls: seq<Line>, i: nat, acc: Rules)
    requires i <= |ls| && (i < |ls| ==> ls[i].Blank?)
    ensures ReadRules(ls, i, acc) == Ok((acc, if i < |ls| then i + 1 else i))
  {
  }

  /** `parse_input` on the lines of a file: the rule loop fills `rules`, stopping at a blank line. */
  method ReadInput(reading: Reading, lines: seq<string>) returns (r: Result<Input>)
    ensures r == ParseInput(reading, lines)
  {
    ghost var ls := LinesOf(reading, lines);
    var rules: Rules := map[];
    var i := 0;
    while i < |lines| && !Py.IsSpace(lines[i])
      invariant i <= |lines|
      invariant ReadRules(ls, 0, map[]) == ReadRules(ls, i, rules)
    {
      var rule := ParseRuleBy(reading, lines[i]);
      ReadRulesStep(ls, i, rules, rule);
      if rule.Err? {
        return Err(rule.msg);
      }
      if rule.value.0 in rules {
        return Err("AssertionError");
      }
      rules := rules[rule.value.0 := rule.value.1];
      i := i + 1;
    }
    ReadRulesEnd(ls, i, rules);
    var start := if i < |lines| then i + 1 else i;
    return Ok(Input(rules, RStripAll(lines[start..])));
  }

  /** Lines `i` to `k` are rule lines that parse, and line `k`, if any, is blank. */
  predicate RuleBlock(ls: seq<Line>, i: nat, k: nat) {
    i <= k <= |ls| && (k == |ls| || ls[k].Blank?) &&
    forall j :: i <= j < k ==> ls[j].RuleLine? && ls[j].rule.Ok?
  }

  /** The number of a rule line that parses. */
  function Num(ls: seq<Line>, j: nat): int
    requires j < |ls| && ls[j].RuleLine? && ls[j].rule.Ok?
  {
    ls[j].rule.value.0
  }

  /** No two rule lines from `i` to `k` have the same number, and none has one already in `acc`. */
  predicate FreshNums(ls: seq<Line>, i: nat, k: nat, acc: Rules)
    requires RuleBlock(ls, i, k)
  {
    (forall j :: i <= j < k ==> Num(ls, j) !in acc) &&
    (forall j1, j2 :: i <= j1 < j2 < k ==> Num(ls, j1) != Num(ls, j2))
  }

  /** The rules of lines `i` to `k` entered one after the other into `acc`. */
  function BlockRules(ls: seq<Line>, i: nat, k: nat, acc: Rules): Rules
    requires RuleBlock(ls, i, k)
    decreases k - i
  {
    if i == k then acc
    else BlockRules(ls, i + 1, k, acc[Num(ls, i) := ls[i].rule.value.1])
  }

  /** One line's number is new, and the rest are new for the rules with it entered. */
  lemma FreshStep(ls: seq<Line>, i: nat, k: nat, acc: Rules)
    requires RuleBlock(ls, i, k) && i < k
    ensures FreshNums(ls, i, k, acc) <==> Num(ls, i) !in acc && FreshNums(ls, i + 1, k, acc[Num(ls, i) := ls[i].rule.value.1])
  {
  }

  /** Reading a block of rule lines that all parse fails on the assertion exactly when a number repeats. */
  lemma {:induction false} ReadRulesBlock(ls: seq<Line>, i: nat, k: nat, acc: Rules)
    requires RuleBlock(ls, i, k)
    ensures ReadRules(ls, i, acc) ==
      if FreshNums(ls, i, k, acc) then Ok((BlockRules(ls, i, k, acc), if k < |ls| then k + 1 else k))
      else Err("AssertionError")
    decreases k - i
  {
    if i < k {
      FreshStep(ls, i, k, acc);
      var rule := ls[i].rule.value;
      if rule.0 !in acc {
        ReadRulesBlock(ls, i + 1, k, acc[rule.0 := rule.1]);
      }
    }
  }

  /** With new numbers, the block's rules hold `acc` and each line's rule under its number, and nothing else. */
  lemma {:induction false} BlockRulesContents(ls: seq<Line>, i: nat, k: nat, acc: Rules)
    requires RuleBlock(ls, i, k) && FreshNums(ls, i, k, acc)
    ensures var rules := BlockRules(ls, i, k, acc);
      (forall n :: n in rules <==> n in acc || exists j :: i <= j < k && Num(ls, j) == n) &&
      (forall n :: n in acc ==> rules[n] == acc[n]) &&
      (forall j :: i <= j < k ==> rules[Num(ls, j)] == ls[j].rule.value.1)
    decreases k - i
  {
    if i < k {
      FreshStep(ls, i, k, acc);
      BlockRulesContents(ls, i + 1, k, acc[Num(ls, i) := ls[i].rule.value.1]);
    }
  }

  /**
   * `parse_input` on lines whose rule lines all parse: it succeeds exactly
   * when the rule numbers are distinct, failing the assertion otherwise;
   * then each rule line's rule is under its number, there are no other
   * rules, and the messages are the lines after the blank line, stripped.
   */
  lemma ParseInputBlock(reading: Reading, lines: seq<string>, k: nat)
    requires RuleBlock(LinesOf(reading, lines), 0, k)
    ensures var ls := LinesOf(reading, lines);
      ParseInput(reading, lines).Ok? <==> forall j1, j2 :: 0 <= j1 < j2 < k ==> Num(ls, j1) != Num(ls, j2)
    ensures ParseInput(reading, lines).Err? ==> ParseInput(reading, lines) == Err("AssertionError")
    ensures ParseInput(reading, lines).Ok? ==>
      var input, ls := ParseInput(reading, lines).value, LinesOf(reading, lines);
      input.messages == RStripAll(lines[if k < |lines| then k + 1 else k..]) &&
      (forall n :: n in input.rules <==> exists j :: 0 <= j < k && Num(ls, j) == n) &&
      (forall j :: 0 <= j < k ==> input.rules[Num(ls, j)] == ls[j].rule.value.1)
  {
    var ls := LinesOf(reading, lines);
    ReadRulesBlock(ls, 0, k, map[]);
    if FreshNums(ls, 0, k, map[]) {
      BlockRulesContents(ls, 0, k, map[]);
    }
  }

  /** A line as read from a file, the rule's text and its newline, reads back under either reading. */
  lemma RuleLineOutcome(reading: Reading, n: int, b: RuleBody)
    requires WellFormed(b)
    ensures LinesOf(reading, [RuleText(n, b) + "\n"])[0] == RuleLine(Ok((n, b)))
  {
    var t := RuleText(n, b);
    var s := t + "\n";
    RuleTextEnd(n, b);
    Py.RStripUnchanged(t);
    Py.RStripNewline(t);
    ParseRuleText(n, b);
    AsWrittenRuleText(n, b);
    assert !Py.IsSpace(s) by {
      assert s[|s| - 2] == t[|t| - 1];
    }
  }

  /**
   * The unclosed quote of a whole input: the code as written reads rule 0
   * as the empty literal and no messages, the corrected reading fails.
   */
  lemma UnclosedInput(lines: seq<string>)
    requires lines == ["0: \"a\n", "\n"]
    ensures ParseInput(AsWritten, lines) == Ok(Input(map[0 := Literal("")], []))
    ensures ParseInput(Corrected, lines) == Err("ValueError")
  {
    var line := "0: \"a";
    assert lines[0] == line + "\n";
    Py.RStripNewline(line);
    Py.RStripUnchanged(line);
    assert lines[0][0] == '0' && lines[1][0] == '\n';
    UnclosedQuote(line);
    UnclosedLines(lines, line);
  }

  lemma UnclosedLines(lines: seq<string>, line: string)
    requires |lines| == 2 && Py.RStrip(lines[0]) == Py.RStrip(line) && !Py.IsSpace(lines[0]) && Py.IsSpace(lines[1])
    requires ParseRuleAsWritten(line) == Ok((0, Literal(""))) && ParseRule(line) == Err("ValueError")
    ensures ParseInput(AsWritten, lines) == Ok(Input(map[0 := Literal("")], []))
    ensures ParseInput(Corrected, lines) == Err("ValueError")
  {
    var aw := LinesOf(AsWritten, lines);
    assert aw[0] == RuleLine(Ok((0, Literal("")))) && aw[1] == Blank;
    assert ReadRules(aw, 0, map[]) == Ok((map[0 := Literal("")], 2));
    var co := LinesOf(Corrected, lines);
    assert co[0] == RuleLine(Err("ValueError"));
  }

  // ---------------------------------------------------------------- update_rules

  /** `update_rules`: rule 8 becomes one or more 42s, rule 11 becomes 42s followed by as many 31s. */
  function UpdateRules(rules: Rules): (r: Rules)
    ensures r.Keys == rules.Keys + {8, 11}
    ensures r[8] == Alternatives([[42], [42, 8]]) && r[11] == Alternatives([[42, 31], [42, 11, 31]])
    ensures forall n :: n in rules && n != 8 && n != 11 ==> r[n] == rules[n]
  {
    rules[8 := Alternatives([[42], [42, 8]])][11 := Alternatives([[42, 31], [42, 11, 31]])]
  }

  /** The new rules loop only through sequences that shorten the message: a rank above 42 for 8 keeps them ranked. */
  lemma UpdatedRanked(rules: Rules, rank: int -> nat)
    requires Ranked(rules, rank) && rank(8) > rank(42)
    ensures Ranked(UpdateRules(rules), rank)
  {
    var r := UpdateRules(rules);
    forall id, k | id in r && r[id].Alternatives? && 0 <= k < |r[id].seqs| && |r[id].seqs[k]| == 1
      ensures rank(r[id].seqs[k][0]) < rank(id)
    {
      if id == 8 {
        assert k == 0;
      } else if id != 11 {
        assert r[id] == rules[id];
      }
    }
  }
}
