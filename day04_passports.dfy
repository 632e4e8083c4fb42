/**
 * Day 4 (04/04.py): passports given as "key:value" tokens, grouped by blank
 * lines, and the field rules that decide whether a passport is valid.
 */
module Passports {
  import opened Base
  import Py

  type Passport = map<string, string>

  // ---------------------------------------------------------------- parse_passport

  /** `k, v = token.split(':')`: a ValueError unless the token has exactly one ':'. */
  function TokenField(token: string): (r: Result<(string, string)>)
    ensures r.Ok? ==> token == r.value.0 + ":" + r.value.1 && ':' !in r.value.0 && ':' !in r.value.1
  {
    var parts := Py.Split(token, ":");
    if |parts| != 2 then Err("ValueError")
    else
      Py.JoinSplit(token, ":");
      Py.SplitPiecesAvoidSep(token, ':');
      assert parts[0] in parts && parts[1] in parts;
      Ok((parts[0], parts[1]))
  }

  /** A key and a value free of ':' always make a token that splits back into them. */
  lemma TokenFieldRender(k: string, v: string)
    requires ':' !in k && ':' !in v
    ensures TokenField(k + ":" + v) == Ok((k, v))
  {
    Py.SplitAtFirst(k, ':', v);
    Py.SplitWithoutSep(v, ':');
  }

  /** The loop of `parse_passport` over the tokens: each token's key is (re)assigned in turn. */
  function Fields(tokens: seq<string>): (r: Result<Passport>)
  {
    if tokens == [] then Ok(map[])
    else
      var m :- Fields(tokens[..|tokens| - 1]);
      var kv :- TokenField(tokens[|tokens| - 1]);
      Ok(m[kv.0 := kv.1])
  }

  function Key(token: string): string
    requires TokenField(token).Ok?
  {
    TokenField(token).value.0
  }

  function Value(token: string): string
    requires TokenField(token).Ok?
  {
    TokenField(token).value.1
  }

  /** Parsing fails exactly when some token lacks exactly one ':'. */
  lemma {:induction false} FieldsOkIff(tokens: seq<string>)
    ensures Fields(tokens).Ok? <==> forall i :: 0 <= i < |tokens| ==> TokenField(tokens[i]).Ok?
  {
    if tokens != [] {
      var init := tokens[..|tokens| - 1];
      FieldsOkIff(init);
      assert forall i :: 0 <= i < |init| ==> init[i] == tokens[i];
    }
  }

  /** The keys of a parsed passport are exactly the tokens' keys. */
  lemma {:induction false} FieldsKeys(tokens: seq<string>)
    requires Fields(tokens).Ok?
    ensures forall i :: 0 <= i < |tokens| ==> TokenField(tokens[i]).Ok?
    ensures forall k :: k in Fields(tokens).value <==> exists i :: 0 <= i < |tokens| && Key(tokens[i]) == k
  {
    FieldsOkIff(tokens);
    if tokens != [] {
      var init := tokens[..|tokens| - 1];
      var last := tokens[|tokens| - 1];
      FieldsKeys(init);
      assert forall i :: 0 <= i < |init| ==> init[i] == tokens[i];
      var m := Fields(tokens).value;
      assert m == Fields(init).value[Key(last) := Value(last)];
      forall k ensures k in m <==> exists i :: 0 <= i < |tokens| && Key(tokens[i]) == k {
        if k in m && k != Key(last) {
          var i :| 0 <= i < |init| && Key(init[i]) == k;
          assert Key(tokens[i]) == k;
        }
        if k == Key(last) {
          assert Key(tokens[|tokens| - 1]) == k;
        }
      }
    }
  }

  /** Each key holds the value of the last token with that key: later duplicates overwrite. */
  lemma {:induction false} FieldsLastWins(tokens: seq<string>, i: nat)
    requires Fields(tokens).Ok? && i < |tokens|
    requires TokenField(tokens[i]).Ok?
    requires forall j :: i < j < |tokens| ==> TokenField(tokens[j]).Ok? && Key(tokens[j]) != Key(tokens[i])
    ensures Key(tokens[i]) in Fields(tokens).value && Fields(tokens).value[Key(tokens[i])] == Value(tokens[i])
  {
    var init := tokens[..|tokens| - 1];
    var last := tokens[|tokens| - 1];
    if i < |tokens| - 1 {
      assert init[i] == tokens[i];
      forall j | i < j < |init| ensures TokenField(init[j]).Ok? && Key(init[j]) != Key(init[i]) {
        assert init[j] == tokens[j];
      }
      FieldsLastWins(init, i);
    }
  }

  /** `parse_passport`, as a specification: split on single spaces, then on ':'. */
  function PassportOf(s: string): Result<Passport> {
    Fields(Py.Split(s, " "))
  }

  /** `parse_passport` with its loop. */
  method ParsePassport(s: string) returns (r: Result<Passport>)
    ensures r == PassportOf(s)
  {
    var tokens := Py.Split(s, " ");
    var passport: Passport := map[];
    var i := 0;
    while i < |tokens|
      invariant 0 <= i <= |tokens|
      invariant Fields(tokens[..i]) == Ok(passport)
    {
      assert tokens[..i + 1][..i] == tokens[..i];
      var kv := TokenField(tokens[i]);
      if kv.Err? {
        FieldsErrStays(tokens, i + 1);
        return kv.PropagateFailure();
      }
      passport := passport[kv.value.0 := kv.value.1];
      i := i + 1;
    }
    assert tokens[..i] == tokens;
    r := Ok(passport);
  }

  /** Once a prefix of the tokens fails, every longer prefix fails. */
  lemma {:induction false} FieldsErrStays(tokens: seq<string>, i: nat)
    requires i <= |tokens| && Fields(tokens[..i]).Err?
    ensures Fields(tokens) == Fields(tokens[..i])
    decreases |tokens| - i
  {
    if i == |tokens| {
      assert tokens[..i] == tokens;
    } else {
      assert tokens[..i + 1][..i] == tokens[..i];
      FieldsErrStays(tokens, i + 1);
    }
  }

  /** A passport written with single spaces between distinct "key:value" tokens parses back to its map. */
  lemma ParseTwoFields(k1: string, v1: string, k2: string, v2: string)
    requires ':' !in k1 && ':' !in v1 && ':' !in k2 && ':' !in v2
    requires ' ' !in k1 && ' ' !in v1 && ' ' !in k2 && ' ' !in v2
    ensures PassportOf(k1 + ":" + v1 + " " + k2 + ":" + v2) == Ok(map[k1 := v1, k2 := v2])
  {
    var t1, t2 := k1 + ":" + v1, k2 + ":" + v2;
    assert ' ' !in t1 && ' ' !in t2;
    Py.SplitAtFirst(t1, ' ', t2);
    Py.SplitWithoutSep(t2, ' ');
    assert k1 + ":" + v1 + " " + k2 + ":" + v2 == t1 + [' '] + t2;
    TokenFieldRender(k1, v1);
    TokenFieldRender(k2, v2);
    var ts := [t1, t2];
    assert Py.Split(k1 + ":" + v1 + " " + k2 + ":" + v2, " ") == ts;
    assert ts[..1] == [t1] && [t1][..0] == [];
    assert Fields([t1]) == Ok(map[k1 := v1]);
    assert Fields(ts) == Ok(map[k1 := v1][k2 := v2]);
  }

  // ---------------------------------------------------------------- read_input

  /** `add_passport`'s text: strip trailing whitespace, then newlines become spaces. */
  function Finish(text: string): string {
    Py.ReplaceChar(Py.RStrip(text), '\n', ' ')
  }

  /** The state of `read_input`'s loop: the passport texts so far and the open group. */
  datatype Scan = Scan(texts: seq<string>, open: string)

  /** One iteration: a whitespace line closes the open group, any other line is appended to it. */
  function Step(st: Scan, line: string): Scan {
    if Py.IsSpace(line) then Scan(st.texts + [Finish(st.open)], "") else Scan(st.texts, st.open + line)
  }

  /** The state after the given lines. */
  function Collect(lines: seq<string>): Scan {
    if lines == [] then Scan([], "") else Step(Collect(lines[..|lines| - 1]), lines[|lines| - 1])
  }

  /** The passport texts of `read_input`: the collected ones, plus the open group if it is non-empty. */
  function GroupTexts(lines: seq<string>): seq<string> {
    var st := Collect(lines);
    if st.open != "" then st.texts + [Finish(st.open)] else st.texts
  }

  /** `list(map(parse_passport, texts))`: the first failing text raises. */
  function ParseAll(texts: seq<string>): (r: Result<seq<Passport>>)
    ensures r.Ok? ==> |r.value| == |texts| && forall i :: 0 <= i < |texts| ==> PassportOf(texts[i]) == Ok(r.value[i])
    ensures r.Err? ==> exists i :: 0 <= i < |texts| && PassportOf(texts[i]).Err?
  {
    if texts == [] then Ok([])
    else
      var init := texts[..|texts| - 1];
      var ps :- ParseAll(init);
      var p :- PassportOf(texts[|texts| - 1]);
      assert forall i :: 0 <= i < |init| ==> texts[i] == init[i];
      Ok(ps + [p])
  }

  /** `read_input` as a specification. */
  function ReadInputSpec(lines: seq<string>): Result<seq<Passport>> {
    ParseAll(GroupTexts(lines))
  }

  /** `read_input`, with its loop over the lines and the string accumulator. */
  method ReadInput(lines: seq<string>) returns (r: Result<seq<Passport>>)
    ensures r == ReadInputSpec(lines)
  {
    var texts: seq<string> := [];
    var passport := "";
    for i := 0 to |lines|
      invariant Collect(lines[..i]) == Scan(texts, passport)
    {
      assert lines[..i + 1][..i] == lines[..i];
      if Py.IsSpace(lines[i]) {
        texts := texts + [Finish(passport)];
        passport := "";
      } else {
        passport := passport + lines[i];
      }
    }
    assert lines[..|lines|] == lines;
    if passport != "" {
      texts := texts + [Finish(passport)];
    }
    r := ParseAll(texts);
  }

  function LinesOf(ts: seq<string>): seq<string> {
    seq(|ts|, i requires 0 <= i < |ts| => ts[i] + "\n")
  }

  /** A line of the input: text without newlines that does not end in whitespace. */
  predicate IsTextLine(t: string) {
    t != [] && '\n' !in t && !Py.IsSpaceChar(t[|t| - 1])
  }

  /** Collecting after an empty open group starts afresh: the passports of the later lines are appended. */
  lemma {:induction false} CollectConcat(a: seq<string>, b: seq<string>)
    requires Collect(a).open == ""
    ensures Collect(a + b) == Scan(Collect(a).texts + Collect(b).texts, Collect(b).open)
  {
    if b == [] {
      assert a + b == a;
    } else {
      var b0, l := b[..|b| - 1], b[|b| - 1];
      assert (a + b)[..|a + b| - 1] == a + b0;
      assert (a + b)[|a + b| - 1] == l;
      CollectConcat(a, b0);
      var st := Collect(b0);
      assert Collect(a + b) == Step(Scan(Collect(a).texts + st.texts, st.open), l);
      assert Collect(b) == Step(st, l);
      assert Collect(a).texts + st.texts + [Finish(st.open)] == Collect(a).texts + (st.texts + [Finish(st.open)]);
    }
  }

  /** The lines of one group, never blank, leave no passport and an open group that is their concatenation. */
  lemma {:induction false} CollectGroup(ts: seq<string>)
    requires forall i :: 0 <= i < |ts| ==> IsTextLine(ts[i])
    ensures Collect(LinesOf(ts)) == Scan([], if ts == [] then "" else Py.Join(ts, "\n") + "\n")
  {
    if ts != [] {
      var init := ts[..|ts| - 1];
      var last := ts[|ts| - 1];
      assert LinesOf(ts)[..|ts| - 1] == LinesOf(init);
      CollectGroup(init);
      var line := last + "\n";
      assert LinesOf(ts)[|ts| - 1] == line;
      assert IsTextLine(last);
      TextLineStep(Collect(LinesOf(init)), last);
      assert ts == init + [last];
      JoinSnoc(init, last, "\n");
      assert Collect(LinesOf(ts)) == Step(Collect(LinesOf(init)), line);
      var open := Collect(LinesOf(init)).open;
      if init != [] {
        assert open + line == (Py.Join(init, "\n") + "\n" + last) + "\n";
      }
    }
  }

  /** A text line is appended to the open group. */
  lemma TextLineStep(st: Scan, last: string)
    requires IsTextLine(last)
    ensures Step(st, last + "\n") == Scan(st.texts, st.open + (last + "\n"))
  {
    var line := last + "\n";
    assert line[|last| - 1] == last[|last| - 1];
    assert !Py.IsSpace(line);
  }

  lemma {:induction false} JoinSnoc(init: seq<string>, last: string, sep: string)
    ensures Py.Join(init + [last], sep) == if init == [] then last else Py.Join(init, sep) + sep + last
  {
    if init != [] {
      if |init| == 1 {
        assert init + [last] == [init[0], last];
        assert [init[0], last][1..] == [last];
      } else {
        assert (init + [last])[1..] == init[1..] + [last];
        JoinSnoc(init[1..], last, sep);
      }
    }
  }

  lemma {:induction false} JoinNoChar(ts: seq<string>, sep: string, c: char)
    requires forall i :: 0 <= i < |ts| ==> c !in ts[i]
    requires c !in sep
    ensures c !in Py.Join(ts, sep)
  {
    if |ts| > 1 {
      JoinNoChar(ts[1..], sep, c);
    }
  }

  lemma {:induction false} ReplaceJoin(ts: seq<string>)
    requires forall i :: 0 <= i < |ts| ==> '\n' !in ts[i]
    ensures Py.ReplaceChar(Py.Join(ts, "\n"), '\n', ' ') == Py.Join(ts, " ")
  {
    if |ts| == 1 {
      assert Py.ReplaceChar(ts[0], '\n', ' ') == ts[0];
    } else if |ts| > 1 {
      ReplaceJoin(ts[1..]);
      Py.ReplaceCharConcat(ts[0] + "\n", Py.Join(ts[1..], "\n"), '\n', ' ');
      Py.ReplaceCharConcat(ts[0], "\n", '\n', ' ');
      assert Py.ReplaceChar(ts[0], '\n', ' ') == ts[0];
    }
  }

  /** A group's passport text is its lines joined with single spaces. */
  lemma GroupText(ts: seq<string>)
    requires ts != [] && forall i :: 0 <= i < |ts| ==> IsTextLine(ts[i])
    ensures Finish(Py.Join(ts, "\n") + "\n") == Py.Join(ts, " ")
  {
    var j := Py.Join(ts, "\n");
    JoinEndsWith(ts, "\n");
    RStripNewline(j);
    forall i | 0 <= i < |ts| ensures '\n' !in ts[i] {
      assert IsTextLine(ts[i]);
    }
    ReplaceJoin(ts);
  }

  /** A final newline is stripped off a text that rstrip leaves alone. */
  lemma RStripNewline(j: string)
    requires Py.RStrip(j) == j
    ensures Py.RStrip(j + "\n") == j
  {
    var t := j + "\n";
    assert t[|t| - 1] == '\n';
    assert t[..|t| - 1] == j;
  }

  /** A join whose last piece ends in a non-space is unchanged by rstrip. */
  lemma JoinEndsWith(ts: seq<string>, sep: string)
    requires ts != [] && forall i :: 0 <= i < |ts| ==> IsTextLine(ts[i])
    ensures Py.RStrip(Py.Join(ts, sep)) == Py.Join(ts, sep)
  {
    var init, last := ts[..|ts| - 1], ts[|ts| - 1];
    assert ts == init + [last];
    JoinSnoc(init, last, sep);
    var j := Py.Join(ts, sep);
    assert j[|j| - 1] == last[|last| - 1];
  }

  /** The last group is kept although no blank line follows it. */
  lemma LastGroupKept(ts: seq<string>)
    requires ts != [] && forall i :: 0 <= i < |ts| ==> IsTextLine(ts[i])
    ensures GroupTexts(LinesOf(ts)) == [Py.Join(ts, " ")]
  {
    CollectGroup(ts);
    GroupText(ts);
  }

  /** Two groups separated by a blank line give two passport texts, each its lines joined with spaces. */
  lemma TwoGroups(ts: seq<string>, us: seq<string>)
    requires ts != [] && forall i :: 0 <= i < |ts| ==> IsTextLine(ts[i])
    requires us != [] && forall i :: 0 <= i < |us| ==> IsTextLine(us[i])
    ensures GroupTexts(LinesOf(ts) + ["\n"] + LinesOf(us)) == [Py.Join(ts, " "), Py.Join(us, " ")]
  {
    var a := LinesOf(ts) + ["\n"];
    ClosedGroup(ts);
    CollectConcat(a, LinesOf(us));
    CollectGroup(us);
    GroupText(us);
  }

  /** A group followed by a blank line is closed: one passport text and nothing open. */
  lemma ClosedGroup(ts: seq<string>)
    requires ts != [] && forall i :: 0 <= i < |ts| ==> IsTextLine(ts[i])
    ensures Collect(LinesOf(ts) + ["\n"]) == Scan([Py.Join(ts, " ")], "")
  {
    var a := LinesOf(ts) + ["\n"];
    CollectGroup(ts);
    GroupText(ts);
    assert a[..|a| - 1] == LinesOf(ts);
    assert Py.IsSpace("\n");
    assert Collect(a) == Step(Collect(LinesOf(ts)), "\n");
  }

  // ---------------------------------------------------------------- passport_is_valid

  /** `lo <= int(v) <= hi`, False on a ValueError; `int()` ignores whitespace around the digits. */
  predicate YearIn(v: string, lo: int, hi: int) {
    Py.IntOfLine(v).Some? && lo <= Py.IntOfLine(v).value <= hi
  }

  /** A year followed by a tab, which the split on single spaces leaves in the value, is read as the year. */
  lemma YearWithTab(y: nat, lo: int, hi: int)
    requires lo <= y <= hi
    ensures YearIn(Py.NatToString(y) + "\t", lo, hi)
  {
    var s := Py.NatToString(y);
    assert (s + "\t")[..|s|] == s;
    assert Py.RStrip(s + "\t") == s by {
      assert Py.IsDigit(s[|s| - 1]);
      Py.RStripUnchanged(s);
    }
    assert Py.LStrip(s) == s by {
      assert Py.IsDigit(s[0]);
    }
    Py.ParseNatToString(y);
  }

  /** `re.fullmatch('([0-9]+)(cm|in)', v)`: the number and the unit. */
  function SplitHeight(v: string): (r: Option<(string, string)>)
    ensures r.Some? ==> v == r.value.0 + r.value.1 && r.value.0 != [] && Py.AllDigits(r.value.0)
                        && (r.value.1 == "cm" || r.value.1 == "in")
  {
    var i := Py.DigitsEnd(v, 0);
    if i > 0 && (v[i..] == "cm" || v[i..] == "in") then
      assert v == v[..i] + v[i..];
      Some((v[..i], v[i..]))
    else None
  }

  /** The height pattern matches exactly digits followed by "cm" or "in". */
  lemma SplitHeightExact(d: string, u: string)
    requires d != [] && Py.AllDigits(d) && (u == "cm" || u == "in")
    ensures SplitHeight(d + u) == Some((d, u))
  {
    var v := d + u;
    assert v[..|d|] == d && v[|d|..] == u;
    assert !Py.IsDigit(v[|d|]);
    assert Py.DigitsEnd(v, 0) == |d|;
  }

  /** The height checks: the pattern, then the range of its unit. */
  predicate HeightOk(v: string) {
    match SplitHeight(v)
    case None => false
    case Some((d, u)) =>
      Py.AllDigits(d) && !(u == "cm" && !(150 <= Py.DigitsValue(d) <= 193))
      && !(u == "in" && !(59 <= Py.DigitsValue(d) <= 76))
  }

  predicate IsLowerHex(c: char) {
    ('0' <= c <= '9') || ('a' <= c <= 'f')
  }

  /** `re.fullmatch('#[0-9a-f]{6}', v)`. */
  predicate HairOk(v: string) {
    |v| == 7 && v[0] == '#' && forall i :: 1 <= i < 7 ==> IsLowerHex(v[i])
  }

  const EyeColours: seq<string> := ["amb", "blu", "brn", "gry", "grn", "hzl", "oth"]

  /** `re.fullmatch('[0-9]{9}', v)`. */
  predicate PidOk(v: string) {
    |v| == 9 && Py.AllDigits(v)
  }

  /** `passport_is_valid`: the checks in the source's order; a missing key (KeyError) or a number
   * that does not parse (ValueError) makes the passport invalid. */
  predicate PassportIsValid(p: Passport) {
    "byr" in p && YearIn(p["byr"], 1920, 2002)
    && "iyr" in p && YearIn(p["iyr"], 2010, 2020)
    && "eyr" in p && YearIn(p["eyr"], 2020, 2030)
    && "hgt" in p && HeightOk(p["hgt"])
    && "hcl" in p && HairOk(p["hcl"])
    && "ecl" in p && p["ecl"] in EyeColours
    && "pid" in p && PidOk(p["pid"])
  }

  const RequiredKeys: set<string> := {"byr", "iyr", "eyr", "hgt", "hcl", "ecl", "pid"}

  /** The rule each required field must satisfy, checked on its own. */
  predicate FieldOk(k: string, v: string) {
    if k == "byr" then YearIn(v, 1920, 2002)
    else if k == "iyr" then YearIn(v, 2010, 2020)
    else if k == "eyr" then YearIn(v, 2020, 2030)
    else if k == "hgt" then HeightOk(v)
    else if k == "hcl" then HairOk(v)
    else if k == "ecl" then v in EyeColours
    else if k == "pid" then PidOk(v)
    else true
  }

  lemma RequiredKeyCases(k: string)
    requires k in RequiredKeys
    ensures k == "byr" || k == "iyr" || k == "eyr" || k == "hgt" || k == "hcl" || k == "ecl" || k == "pid"
  {
  }

  /** Valid exactly when every required key is present and each satisfies its own rule, in any order. */
  lemma ValidIffFieldsOk(p: Passport)
    ensures PassportIsValid(p) <==> RequiredKeys <= p.Keys && forall k :: k in RequiredKeys ==> FieldOk(k, p[k])
  {
    if PassportIsValid(p) {
      forall k | k in RequiredKeys ensures k in p && FieldOk(k, p[k]) {
        RequiredKeyCases(k);
        if k == "byr" {
        } else if k == "iyr" {
        } else if k == "eyr" {
        } else if k == "hgt" {
        } else if k == "hcl" {
        } else if k == "ecl" {
        } else {
          assert k == "pid";
        }
      }
    }
    if RequiredKeys <= p.Keys && forall k :: k in RequiredKeys ==> FieldOk(k, p[k]) {
      assert FieldOk("byr", p["byr"]) && FieldOk("iyr", p["iyr"]) && FieldOk("eyr", p["eyr"]);
      assert FieldOk("hgt", p["hgt"]) && FieldOk("hcl", p["hcl"]) && FieldOk("ecl", p["ecl"]) && FieldOk("pid", p["pid"]);
    }
  }

  /** A missing required key makes the passport invalid. */
  lemma MissingKeyInvalid(p: Passport, k: string)
    requires k in RequiredKeys && k !in p
    ensures !PassportIsValid(p)
  {
  }

  /** `cid`, like every key outside the seven required ones, never affects validity. */
  lemma OtherKeysIgnored(p: Passport, k: string, v: string)
    requires k !in RequiredKeys
    ensures PassportIsValid(p[k := v]) == PassportIsValid(p)
    ensures PassportIsValid(p - {k}) == PassportIsValid(p)
  {
    SameRequiredFields(p[k := v], p);
    SameRequiredFields(p - {k}, p);
  }

  /** Validity reads only the required keys. */
  lemma SameRequiredFields(p: Passport, q: Passport)
    requires forall r :: r in RequiredKeys ==> (r in p <==> r in q) && (r in p ==> p[r] == q[r])
    ensures PassportIsValid(p) == PassportIsValid(q)
  {
    assert "byr" in RequiredKeys && "iyr" in RequiredKeys && "eyr" in RequiredKeys && "hgt" in RequiredKeys;
    assert "hcl" in RequiredKeys && "ecl" in RequiredKeys && "pid" in RequiredKeys;
  }

  lemma CidIgnored(p: Passport, v: string)
    ensures PassportIsValid(p["cid" := v]) == PassportIsValid(p)
    ensures PassportIsValid(p - {"cid"}) == PassportIsValid(p)
  {
    OtherKeysIgnored(p, "cid", v);
  }

  /** A height is valid when its number lies in the range of its unit. */
  lemma HeightRanges(d: string, u: string)
    requires d != [] && Py.AllDigits(d) && (u == "cm" || u == "in")
    ensures HeightOk(d + u) <==> if u == "cm" then 150 <= Py.DigitsValue(d) <= 193 else 59 <= Py.DigitsValue(d) <= 76
  {
    SplitHeightExact(d, u);
  }

  /** Heights without a unit, or with their number out of range, fail. */
  lemma HeightExamples()
    ensures HeightOk("60in") && HeightOk("190cm") && !HeightOk("190in") && !HeightOk("190")
  {
    HeightExamplesWithUnit();
    HeightWithoutUnit();
  }

  lemma HeightExamplesWithUnit()
    ensures HeightOk("60in") && HeightOk("190cm") && !HeightOk("190in")
  {
    HeightRanges("60", "in");
    HeightRanges("190", "cm");
    HeightRanges("190", "in");
    assert "60in" == "60" + "in" && "190cm" == "190" + "cm" && "190in" == "190" + "in";
    SampleDigitValues();
  }

  lemma SampleDigitValues()
    ensures Py.DigitsValue("60") == 60 && Py.DigitsValue("190") == 190
  {
    assert "60"[..1] == "6";
    assert "190"[..2] == "19" && "19"[..1] == "1";
  }

  lemma HeightWithoutUnit()
    ensures !HeightOk("190")
  {
    assert Py.DigitsEnd("190", 0) == 3;
  }
}
