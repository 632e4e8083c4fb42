/**
 * Day 16 (16/16.py): ticket translation. Each rule names a field and gives two
 * inclusive ranges; nearby tickets with a value no rule accepts are invalid,
 * and the valid ones narrow down, by elimination, which rule belongs to which
 * position of your ticket.
 */
module Tickets {
  import opened Base
  import Py

  /** Python's `range(lo, hi)`: lo <= n < hi. */
  datatype Range = Range(lo: int, hi: int)

  /** `Rule(name, ranges)`. */
  datatype Rule = Rule(name: string, ranges: seq<Range>)

  /** `Input(rules, your_ticket, nearby_tickets)`. */
  datatype Input = Input(rules: seq<Rule>, yourTicket: seq<int>, nearbyTickets: seq<seq<int>>)

  predicate InRange(r: Range, n: int) {
    r.lo <= n < r.hi
  }

  /** `int(s)`, raising ValueError. */
  function Int(s: string): Result<int> {
    match Py.IntOfLine(s)
    case None => Err("ValueError")
    case Some(n) => Ok(n)
  }

  // ---------------------------------------------------------------- parsing

  /** `parse_range("a-b")`: `range(a, b + 1)`. `int(splits[0])` is evaluated before `splits[1]`
   * is looked up. */
  function ParseRange(r: string): (res: Result<Range>) {
    var splits := Py.Split(r, "-");
    var lo :- Int(splits[0]);
    if |splits| < 2 then Err("IndexError")
    else
      var hi :- Int(splits[1]);
      Ok(Range(lo, hi + 1))
  }

  /** `parse_rule`: the name before the one ':' and the ranges at words 1 and 3 after it. */
  function ParseRule(line: string): (res: Result<Rule>)
    ensures res.Ok? ==> |res.value.ranges| == 2 && ':' !in res.value.name
  {
    var parts := Py.Split(Py.RStrip(line), ":");
    if |parts| != 2 then Err("ValueError")
    else
      Py.SplitPiecesAvoidSep(Py.RStrip(line), ':');
      assert parts[0] in parts;
      var splits := Py.Split(parts[1], " ");
      if |splits| < 2 then Err("IndexError")
      else
        var first :- ParseRange(splits[1]);
        if |splits| < 4 then Err("IndexError")
        else
          var second :- ParseRange(splits[3]);
          Ok(Rule(parts[0], [first, second]))
  }

  /** `parse_ticket`: the comma-separated integers of a line. */
  function ParseTicket(line: string): Result<seq<int>> {
    MapResult(Int, Py.Split(Py.RStrip(line), ","))
  }

  /** The text "a-b" of an inclusive range. */
  function RangeText(a: nat, b: nat): string {
    Py.NatToString(a) + "-" + Py.NatToString(b)
  }

  /** A rule line as the puzzle writes it: "name: a-b or c-d". */
  function RuleLine(name: string, a: nat, b: nat, c: nat, d: nat): string {
    name + ": " + RangeText(a, b) + " or " + RangeText(c, d) + "\n"
  }

  /** A ticket line: the values joined by commas. */
  function TicketLine(t: seq<nat>): string {
    Py.Join(seq(|t|, i requires 0 <= i < |t| => Py.NatToString(t[i])), ",") + "\n"
  }

  lemma DigitsAvoid(s: string, c: char)
    requires Py.AllDigits(s) && !Py.IsDigit(c)
    ensures c !in s
  {
    forall i | 0 <= i < |s| ensures s[i] != c {
      assert Py.IsDigit(s[i]);
    }
  }

  /** `int()` reads back a number's decimal text. */
  lemma IntOfNat(n: nat)
    ensures Int(Py.NatToString(n)) == Ok(n)
  {
    var s := Py.NatToString(n);
    Py.StripUnchanged(s);
    Py.ParseNatToString(n);
  }

  /** "a-b" parses to the range of a to b inclusive. */
  lemma ParseRangeText(a: nat, b: nat)
    ensures ParseRange(RangeText(a, b)) == Ok(Range(a, b + 1))
  {
    var sa, sb := Py.NatToString(a), Py.NatToString(b);
    DigitsAvoid(sa, '-');
    DigitsAvoid(sb, '-');
    Py.SplitJoin([sa, sb], '-');
    assert Py.Join([sa, sb], "-") == RangeText(a, b);
    ParseRangeSplits(a, b, Py.Split(RangeText(a, b), "-"));
  }

  lemma ParseRangeSplits(a: nat, b: nat, splits: seq<string>)
    requires splits == [Py.NatToString(a), Py.NatToString(b)] && splits == Py.Split(RangeText(a, b), "-")
    ensures ParseRange(RangeText(a, b)) == Ok(Range(a, b + 1))
  {
    IntOfNat(a);
    IntOfNat(b);
  }

  /** A rule line parses to its name and its two inclusive ranges. */
  lemma ParseRuleLine(name: string, a: nat, b: nat, c: nat, d: nat)
    requires ':' !in name
    ensures ParseRule(RuleLine(name, a, b, c, d)) == Ok(Rule(name, [Range(a, b + 1), Range(c, d + 1)]))
  {
    var ra, rc := RangeText(a, b), RangeText(c, d);
    var rest := " " + ra + " or " + rc;
    RuleLineBody(name, a, b, c, d);
    RangeTextAvoids(a, b);
    RangeTextAvoids(c, d);
    ColonSplit(name, rest);
    SpaceSplit(ra, rc);
    ParseRangeText(a, b);
    ParseRangeText(c, d);
    ParseRuleParts(RuleLine(name, a, b, c, d), [name, rest], ["", ra, "or", rc]);
  }

  lemma ColonSplit(name: string, rest: string)
    requires ':' !in name && ':' !in rest
    ensures Py.Split(name + ":" + rest, ":") == [name, rest]
  {
    Py.SplitAtFirst(name, ':', rest);
    Py.SplitWithoutSep(rest, ':');
  }

  lemma SpaceSplit(ra: string, rc: string)
    requires ' ' !in ra && ' ' !in rc
    ensures Py.Split(" " + ra + " or " + rc, " ") == ["", ra, "or", rc]
  {
    Py.SplitJoin(["", ra, "or", rc], ' ');
    JoinFour("", ra, "or", rc, " ");
    assert "" + " " + ra + " " + "or" + " " + rc == " " + ra + " or " + rc;
  }

  lemma JoinFour(p0: string, p1: string, p2: string, p3: string, sep: string)
    ensures Py.Join([p0, p1, p2, p3], sep) == p0 + sep + p1 + sep + p2 + sep + p3
  {
    assert [p2, p3][1..] == [p3];
    assert Py.Join([p2, p3], sep) == p2 + sep + p3;
    assert [p1, p2, p3][1..] == [p2, p3];
    assert Py.Join([p1, p2, p3], sep) == p1 + sep + (p2 + sep + p3);
    assert [p0, p1, p2, p3][1..] == [p1, p2, p3];
    assert Py.Join([p0, p1, p2, p3], sep) == p0 + sep + (p1 + sep + (p2 + sep + p3));
  }

  lemma RuleLineBody(name: string, a: nat, b: nat, c: nat, d: nat)
    ensures Py.RStrip(RuleLine(name, a, b, c, d)) == name + ":" + (" " + RangeText(a, b) + " or " + RangeText(c, d))
  {
    var body := name + ":" + (" " + RangeText(a, b) + " or " + RangeText(c, d));
    assert RuleLine(name, a, b, c, d) == body + "\n";
    var sd := Py.NatToString(d);
    assert body[|body| - 1] == sd[|sd| - 1];
    Py.RStripNewline(body);
  }

  lemma RangeTextAvoids(a: nat, b: nat)
    ensures ':' !in RangeText(a, b) && ' ' !in RangeText(a, b)
  {
    DigitsAvoid(Py.NatToString(a), ':');
    DigitsAvoid(Py.NatToString(a), ' ');
    DigitsAvoid(Py.NatToString(b), ':');
    DigitsAvoid(Py.NatToString(b), ' ');
  }

  lemma ParseRuleParts(line: string, parts: seq<string>, splits: seq<string>)
    requires parts == Py.Split(Py.RStrip(line), ":") && |parts| == 2
    requires splits == Py.Split(parts[1], " ") && |splits| == 4
    requires ParseRange(splits[1]).Ok? && ParseRange(splits[3]).Ok?
    ensures ParseRule(line) == Ok(Rule(parts[0], [ParseRange(splits[1]).value, ParseRange(splits[3]).value]))
  {
  }

  /** The texts of a ticket's values. */
  function TicketParts(t: seq<nat>): (parts: seq<string>)
    ensures |parts| == |t|
  {
    seq(|t|, i requires 0 <= i < |t| => Py.NatToString(t[i]))
  }

  /** A ticket line parses back to its values. */
  lemma ParseTicketLine(t: seq<nat>)
    requires t != []
    ensures ParseTicket(TicketLine(t)) == Ok(t)
  {
    var parts := TicketParts(t);
    assert TicketLine(t) == Py.Join(parts, ",") + "\n";
    TicketLineBody(t);
    forall i | 0 <= i < |parts| ensures ',' !in parts[i] {
      DigitsAvoid(parts[i], ',');
    }
    Py.SplitJoin(parts, ',');
    PartsValues(t);
  }

  lemma TicketLineBody(t: seq<nat>)
    requires t != []
    ensures Py.RStrip(TicketLine(t)) == Py.Join(TicketParts(t), ",")
  {
    var parts := TicketParts(t);
    assert forall i :: 0 <= i < |parts| ==> parts[i] == Py.NatToString(t[i]);
    JoinEndsInDigit(parts);
    Py.RStripNewline(Py.Join(parts, ","));
  }

  lemma PartsValues(t: seq<nat>)
    ensures MapResult(Int, TicketParts(t)) == Ok(t)
  {
    var parts := TicketParts(t);
    forall i | 0 <= i < |parts| ensures Int(parts[i]) == Ok(t[i]) {
      IntOfNat(t[i]);
    }
    var r := MapResult(Int, parts);
    assert r.Ok?;
    assert r.value == t;
  }

  /** Joining numbers' texts ends in a digit. */
  lemma {:induction false} JoinEndsInDigit(parts: seq<string>)
    requires parts != [] && forall i :: 0 <= i < |parts| ==> parts[i] != [] && Py.AllDigits(parts[i])
    ensures var s := Py.Join(parts, ","); s != [] && Py.IsDigit(s[|s| - 1])
  {
    if |parts| > 1 {
      JoinEndsInDigit(parts[1..]);
    }
  }

  // ---------------------------------------------------------------- rules and error rates

  function AnyRange(rs: seq<Range>, n: int): bool {
    rs != [] && (InRange(rs[0], n) || AnyRange(rs[1..], n))
  }

  /** `passes_rule`: `n` lies in one of the rule's ranges. */
  function PassesRule(rule: Rule, n: int): bool {
    AnyRange(rule.ranges, n)
  }

  /** `passes_any_rule`. */
  function PassesAnyRule(rules: seq<Rule>, n: int): bool {
    rules != [] && (PassesRule(rules[0], n) || PassesAnyRule(rules[1..], n))
  }

  /** `any(n in r for r in ranges)` holds exactly when some range holds n. */
  lemma {:induction false} AnyRangeExists(rs: seq<Range>, n: int)
    ensures AnyRange(rs, n) <==> exists k :: 0 <= k < |rs| && InRange(rs[k], n)
  {
    if rs != [] {
      AnyRangeExists(rs[1..], n);
      assert forall k :: 1 <= k < |rs| ==> rs[k] == rs[1..][k - 1];
    }
  }

  /** `passes_any_rule` holds exactly when some rule passes n. */
  lemma {:induction false} PassesAnyRuleExists(rules: seq<Rule>, n: int)
    ensures PassesAnyRule(rules, n) <==> exists k :: 0 <= k < |rules| && PassesRule(rules[k], n)
  {
    if rules != [] {
      PassesAnyRuleExists(rules[1..], n);
      assert forall k :: 1 <= k < |rules| ==> rules[k] == rules[1..][k - 1];
    }
  }

  /** A parsed rule accepts exactly the numbers of its two inclusive ranges. */
  lemma PassesRuleLine(name: string, a: nat, b: nat, c: nat, d: nat, n: int)
    requires ':' !in name
    ensures ParseRule(RuleLine(name, a, b, c, d)).Ok?
    ensures PassesRule(ParseRule(RuleLine(name, a, b, c, d)).value, n) <==> (a <= n <= b || c <= n <= d)
  {
    ParseRuleLine(name, a, b, c, d);
    AnyTwo([Range(a, b + 1), Range(c, d + 1)], n);
  }

  lemma AnyTwo(rs: seq<Range>, n: int)
    requires |rs| == 2
    ensures AnyRange(rs, n) == (InRange(rs[0], n) || InRange(rs[1], n))
  {
    var r1 := rs[1..];
    assert r1[0] == rs[1] && r1[1..] == [];
    assert !AnyRange(r1[1..], n);
    assert AnyRange(r1, n) == InRange(rs[1], n);
  }

  lemma AnyThreeRules(rules: seq<Rule>, n: int)
    requires |rules| == 3
    ensures PassesAnyRule(rules, n) == (PassesRule(rules[0], n) || PassesRule(rules[1], n) || PassesRule(rules[2], n))
  {
    var r1 := rules[1..];
    var r2 := r1[1..];
    assert r1[0] == rules[1] && r2[0] == rules[2] && r2[1..] == [];
    assert !PassesAnyRule(r2[1..], n);
    assert PassesAnyRule(r2, n) == PassesRule(rules[2], n);
    assert PassesAnyRule(r1, n) == (PassesRule(rules[1], n) || PassesRule(rules[2], n));
  }

  lemma InvalidThree(rules: seq<Rule>, t: seq<int>)
    requires |t| == 3
    ensures InvalidFields(rules, t) ==
      (if PassesAnyRule(rules, t[0]) then [] else [t[0]]) +
      (if PassesAnyRule(rules, t[1]) then [] else [t[1]]) +
      (if PassesAnyRule(rules, t[2]) then [] else [t[2]])
  {
    var t1 := t[1..];
    var t2 := t1[1..];
    assert t1[0] == t[1] && t2[0] == t[2] && t2[1..] == [];
    assert InvalidFields(rules, t2[1..]) == [];
    assert InvalidFields(rules, t2) == (if PassesAnyRule(rules, t[2]) then [] else [t[2]]);
  }

  /** `[n for n in ticket if not passes_any_rule(rules, n)]`. */
  function InvalidFields(rules: seq<Rule>, ticket: seq<int>): seq<int> {
    if ticket == [] then []
    else (if PassesAnyRule(rules, ticket[0]) then [] else [ticket[0]]) + InvalidFields(rules, ticket[1..])
  }

  /** The invalid fields are the ticket's values that pass no rule, in order, each kept once per
   * occurrence. */
  lemma {:induction false} InvalidFieldsMembers(rules: seq<Rule>, ticket: seq<int>)
    ensures forall x :: x in InvalidFields(rules, ticket) <==> x in ticket && !PassesAnyRule(rules, x)
    ensures multiset(InvalidFields(rules, ticket)) <= multiset(ticket)
  {
    if ticket != [] {
      InvalidFieldsMembers(rules, ticket[1..]);
      assert ticket == [ticket[0]] + ticket[1..];
    }
  }

  /** `get_ticket_error_rate`: whether some value passes no rule, and the sum of those values. */
  function ErrorRate(rules: seq<Rule>, ticket: seq<int>): (bool, int) {
    var invalid := InvalidFields(rules, ticket);
    (|invalid| > 0, Py.Sum(invalid))
  }

  /** The flag is set exactly when some value passes no rule; without it the sum is 0, and a
   * ticket of non-negative values with a positive sum has the flag. */
  lemma ErrorRateFlag(rules: seq<Rule>, ticket: seq<int>)
    ensures ErrorRate(rules, ticket).0 <==> exists i :: 0 <= i < |ticket| && !PassesAnyRule(rules, ticket[i])
    ensures !ErrorRate(rules, ticket).0 ==> ErrorRate(rules, ticket).1 == 0
  {
    var invalid := InvalidFields(rules, ticket);
    InvalidFieldsMembers(rules, ticket);
    if |invalid| > 0 {
      assert invalid[0] in invalid;
    }
  }

  /** The error rate of two tickets' values run together combines their flags and sums. */
  lemma {:induction false} ErrorRateAppend(rules: seq<Rule>, t1: seq<int>, t2: seq<int>)
    ensures InvalidFields(rules, t1 + t2) == InvalidFields(rules, t1) + InvalidFields(rules, t2)
    ensures ErrorRate(rules, t1 + t2) ==
      (ErrorRate(rules, t1).0 || ErrorRate(rules, t2).0, ErrorRate(rules, t1).1 + ErrorRate(rules, t2).1)
  {
    var a, b := InvalidFields(rules, t1), InvalidFields(rules, t2);
    InvalidFieldsAppend(rules, t1, t2);
    Py.SumAppend(a, b);
    assert |a + b| > 0 <==> |a| > 0 || |b| > 0;
  }

  lemma {:induction false} InvalidFieldsAppend(rules: seq<Rule>, t1: seq<int>, t2: seq<int>)
    ensures InvalidFields(rules, t1 + t2) == InvalidFields(rules, t1) + InvalidFields(rules, t2)
  {
    if t1 == [] {
      assert t1 + t2 == t2;
    } else {
      var head := if PassesAnyRule(rules, t1[0]) then [] else [t1[0]];
      assert (t1 + t2)[0] == t1[0];
      assert (t1 + t2)[1..] == t1[1..] + t2;
      InvalidFieldsAppend(rules, t1[1..], t2);
      assert InvalidFields(rules, t1 + t2) == head + InvalidFields(rules, t1[1..] + t2);
      assert InvalidFields(rules, t1) == head + InvalidFields(rules, t1[1..]);
    }
  }

  /** An invalid 0 is an error with rate 0: the flag is what tells it from a valid ticket. */
  lemma InvalidZero(rules: seq<Rule>)
    requires !PassesAnyRule(rules, 0)
    ensures ErrorRate(rules, [0]) == (true, 0)
    ensures ErrorRate(rules, []) == (false, 0)
  {
    assert InvalidFields(rules, [0]) == [0];
  }

  // ---------------------------------------------------------------- the input file

  /** The first blank line at or after `i`, where `for line in f` breaks, or the end of the file. */
  function BlankFrom(lines: seq<string>, i: nat): (k: nat)
    requires i <= |lines|
    ensures i <= k <= |lines| && (k < |lines| ==> Py.IsSpace(lines[k]))
    ensures forall j :: i <= j < k ==> !Py.IsSpace(lines[j])
    decreases |lines| - i
  {
    if i == |lines| || Py.IsSpace(lines[i]) then i else BlankFrom(lines, i + 1)
  }

  /** `parse_input`: the rules up to the first blank line, the header after it, your ticket, two
   * more lines, then the nearby tickets. A `next(f)` past the end raises StopIteration. */
  function ParseInput(lines: seq<string>): Result<Input> {
    var k := BlankFrom(lines, 0);
    var rules :- MapResult(ParseRule, lines[..k]);
    if k + 2 >= |lines| then Err("StopIteration")
    else
      var yours :- ParseTicket(lines[k + 2]);
      if k + 4 >= |lines| then Err("StopIteration")
      else
        var nearby :- MapResult(ParseTicket, lines[k + 5..]);
        Ok(Input(rules, yours, nearby))
  }

  /** A rule as the puzzle text gives it: a name and the bounds of two inclusive ranges. */
  datatype RuleText = RuleText(name: string, a: nat, b: nat, c: nat, d: nat)

  function RuleOf(r: RuleText): Rule {
    Rule(r.name, [Range(r.a, r.b + 1), Range(r.c, r.d + 1)])
  }

  function RuleLines(rules: seq<RuleText>): (r: seq<string>)
    ensures |r| == |rules|
  {
    seq(|rules|, i requires 0 <= i < |rules| => RuleLine(rules[i].name, rules[i].a, rules[i].b, rules[i].c, rules[i].d))
  }

  function RulesOf(rules: seq<RuleText>): (r: seq<Rule>)
    ensures |r| == |rules|
  {
    seq(|rules|, i requires 0 <= i < |rules| => RuleOf(rules[i]))
  }

  function TicketLines(tickets: seq<seq<nat>>): (r: seq<string>)
    ensures |r| == |tickets|
  {
    seq(|tickets|, i requires 0 <= i < |tickets| => TicketLine(tickets[i]))
  }

  /** The lines of an input file: the rules, a blank line, your ticket under its header, a blank line
   * and the nearby tickets under theirs. */
  function InputLines(rules: seq<RuleText>, yours: seq<nat>, nearby: seq<seq<nat>>): seq<string> {
    RuleLines(rules) + ["\n", "your ticket:\n", TicketLine(yours), "\n", "nearby tickets:\n"] + TicketLines(nearby)
  }

  /** `parse_input` reads such a file back. */
  lemma ParseInputLines(rules: seq<RuleText>, yours: seq<nat>, nearby: seq<seq<nat>>)
    requires forall i :: 0 <= i < |rules| ==> ':' !in rules[i].name
    requires yours != [] && forall i :: 0 <= i < |nearby| ==> nearby[i] != []
    ensures ParseInput(InputLines(rules, yours, nearby)) == Ok(Input(RulesOf(rules), yours, nearby))
  {
    var lines := InputLines(rules, yours, nearby);
    var n := |rules|;
    ParseRuleLines(rules);
    assert lines[..n] == RuleLines(rules);
    assert Py.IsSpace(lines[n]) by {
      assert lines[n] == "\n";
    }
    forall j | 0 <= j < n ensures !Py.IsSpace(lines[j]) {
      assert lines[j] == RuleLines(rules)[j];
    }
    BlankIsAt(lines, 0, n);
    assert lines[n + 2] == TicketLine(yours);
    ParseTicketLine(yours);
    ParseTicketLines(nearby);
    assert lines[n + 5..] == TicketLines(nearby);
    ParseInputParts(lines, n, RulesOf(rules), yours, nearby);
  }

  lemma ParseInputParts(lines: seq<string>, n: nat, rules: seq<Rule>, yours: seq<int>, nearby: seq<seq<int>>)
    requires n + 5 <= |lines| && BlankFrom(lines, 0) == n
    requires MapResult(ParseRule, lines[..n]) == Ok(rules)
    requires ParseTicket(lines[n + 2]) == Ok(yours)
    requires MapResult(ParseTicket, lines[n + 5..]) == Ok(nearby)
    ensures ParseInput(lines) == Ok(Input(rules, yours, nearby))
  {
  }

  lemma ParseRuleLines(rules: seq<RuleText>)
    requires forall i :: 0 <= i < |rules| ==> ':' !in rules[i].name
    ensures MapResult(ParseRule, RuleLines(rules)) == Ok(RulesOf(rules))
    ensures forall j :: 0 <= j < |rules| ==> !Py.IsSpace(RuleLines(rules)[j])
  {
    var lines := RuleLines(rules);
    forall j | 0 <= j < |rules| ensures !Py.IsSpace(lines[j]) && ParseRule(lines[j]) == Ok(RulesOf(rules)[j]) {
      ParseRuleAt(rules, j);
    }
    var parsed := MapResult(ParseRule, lines);
    assert parsed.Ok?;
    assert parsed.value == RulesOf(rules);
  }

  lemma ParseRuleAt(rules: seq<RuleText>, j: nat)
    requires j < |rules| && ':' !in rules[j].name
    ensures !Py.IsSpace(RuleLines(rules)[j]) && ParseRule(RuleLines(rules)[j]) == Ok(RulesOf(rules)[j])
  {
    var r := rules[j];
    assert RuleLines(rules)[j] == RuleLine(r.name, r.a, r.b, r.c, r.d);
    assert RulesOf(rules)[j] == RuleOf(r);
    RuleLineNotSpace(r.name, r.a, r.b, r.c, r.d);
    ParseRuleText(r, RuleLines(rules)[j]);
  }

  lemma ParseRuleText(r: RuleText, line: string)
    requires ':' !in r.name && line == RuleLine(r.name, r.a, r.b, r.c, r.d)
    ensures ParseRule(line) == Ok(RuleOf(r))
  {
    RuleOfText(r);
    ParseRuleLine(r.name, r.a, r.b, r.c, r.d);
  }

  lemma RuleOfText(r: RuleText)
    ensures RuleOf(r) == Rule(r.name, [Range(r.a, r.b + 1), Range(r.c, r.d + 1)])
  {
  }

  lemma RuleLineNotSpace(name: string, a: nat, b: nat, c: nat, d: nat)
    ensures !Py.IsSpace(RuleLine(name, a, b, c, d))
  {
    var line := RuleLine(name, a, b, c, d);
    assert line[|name|] == ':';
    assert !Py.IsSpaceChar(line[|name|]);
  }

  lemma ParseTicketLines(tickets: seq<seq<nat>>)
    requires forall i :: 0 <= i < |tickets| ==> tickets[i] != []
    ensures MapResult(ParseTicket, TicketLines(tickets)) == Ok(tickets)
  {
    var lines := TicketLines(tickets);
    forall j | 0 <= j < |tickets| ensures ParseTicket(lines[j]) == Ok(tickets[j]) {
      ParseTicketLine(tickets[j]);
    }
    var parsed := MapResult(ParseTicket, lines);
    assert parsed.Ok?;
    assert parsed.value == tickets;
  }

  lemma {:induction false} BlankIsAt(lines: seq<string>, i: nat, k: nat)
    requires i <= k < |lines| && Py.IsSpace(lines[k]) && forall j :: i <= j < k ==> !Py.IsSpace(lines[j])
    ensures BlankFrom(lines, i) == k
    decreases k - i
  {
    if i < k {
      BlankIsAt(lines, i + 1, k);
    }
  }

  // ---------------------------------------------------------------- pruning

  /** `[t for t in nearby_tickets if not get_ticket_error_rate(rules, t)[0]]`. */
  function ValidTickets(rules: seq<Rule>, tickets: seq<seq<int>>): seq<seq<int>> {
    if tickets == [] then []
    else (if ErrorRate(rules, tickets[0]).0 then [] else [tickets[0]]) + ValidTickets(rules, tickets[1..])
  }

  /** The valid tickets are the nearby tickets every value of which passes some rule. */
  lemma {:induction false} ValidTicketsMembers(rules: seq<Rule>, tickets: seq<seq<int>>)
    ensures forall t :: t in ValidTickets(rules, tickets) <==>
      t in tickets && forall i :: 0 <= i < |t| ==> PassesAnyRule(rules, t[i])
  {
    if tickets != [] {
      ValidTicketsMembers(rules, tickets[1..]);
      ErrorRateFlag(rules, tickets[0]);
      assert tickets == [tickets[0]] + tickets[1..];
    }
  }

  /** Field `f` of ticket `t`, when it has one, passes `rule`. */
  predicate FieldPasses(rule: Rule, t: seq<int>, f: nat) {
    f < |t| ==> PassesRule(rule, t[f])
  }

  /** Field `f` of each of the first `k` tickets passes `rule`. */
  predicate PassesAll(rule: Rule, tickets: seq<seq<int>>, k: nat, f: nat)
    requires k <= |tickets|
  {
    forall j :: 0 <= j < k ==> FieldPasses(rule, tickets[j], f)
  }

  /** `set(range(n))`. */
  function Indices(n: nat): (r: set<int>)
    ensures forall q :: q in r <==> 0 <= q < n
  {
    if n == 0 then {} else Indices(n - 1) + {n - 1}
  }

  /** The rules still possible for field `f` once the tickets have pruned them. */
  function Possible(rules: seq<Rule>, tickets: seq<seq<int>>, f: nat): set<int> {
    set q | 0 <= q < |rules| && PassesAll(rules[q], tickets, |tickets|, f)
  }

  /** `possible_fields` after the pruning loops. */
  function Pruned(rules: seq<Rule>, tickets: seq<seq<int>>, width: nat): (r: seq<set<int>>)
    ensures |r| == width
  {
    seq(width, f requires 0 <= f < width => Possible(rules, tickets, f))
  }

  /** After pruning, rule q is still possible for field f exactly when field f of every valid ticket
   * passes it. */
  lemma PrunedExactly(rules: seq<Rule>, nearby: seq<seq<int>>, width: nat, f: nat, q: int)
    requires f < width
    ensures var valid := ValidTickets(rules, nearby);
      q in Pruned(rules, valid, width)[f] <==>
        0 <= q < |rules| && forall t :: t in valid ==> f < |t| ==> PassesRule(rules[q], t[f])
  {
    var valid := ValidTickets(rules, nearby);
    if 0 <= q < |rules| && PassesAll(rules[q], valid, |valid|, f) {
      forall t | t in valid && f < |t| ensures PassesRule(rules[q], t[f]) {
        var j :| 0 <= j < |valid| && valid[j] == t;
        assert FieldPasses(rules[q], valid[j], f);
      }
    }
  }

  // ---------------------------------------------------------------- elimination

  /** `remove_from_other_sets(sets, n, i)` on values: n leaves every set but set i. */
  function RemovedFromOthers(sets: seq<set<int>>, n: int, i: int): (r: seq<set<int>>)
    ensures |r| == |sets|
  {
    seq(|sets|, j requires 0 <= j < |sets| => if j == i then sets[j] else sets[j] - {n})
  }

  /** Each set shrinks; set i is untouched; every other set loses n and nothing else; and the sets
   * change exactly when n was in one of the others. */
  lemma RemovedFromOthersShape(sets: seq<set<int>>, n: int, i: int)
    ensures Within(RemovedFromOthers(sets, n, i), sets)
    ensures 0 <= i < |sets| ==> RemovedFromOthers(sets, n, i)[i] == sets[i]
    ensures forall j :: 0 <= j < |sets| && j != i ==>
      n !in RemovedFromOthers(sets, n, i)[j] && sets[j] - RemovedFromOthers(sets, n, i)[j] <= {n}
    ensures RemovedFromOthers(sets, n, i) != sets <==> exists j :: 0 <= j < |sets| && j != i && n in sets[j]
  {
    var r := RemovedFromOthers(sets, n, i);
    if r != sets {
      var j :| 0 <= j < |sets| && r[j] != sets[j];
      assert j != i && n in sets[j];
    }
    if exists j :: 0 <= j < |sets| && j != i && n in sets[j] {
      var j :| 0 <= j < |sets| && j != i && n in sets[j];
      assert n !in r[j];
    }
  }

  /** `remove_from_other_sets`: removes n from every set but set i, and says whether it removed any. */
  method RemoveFromOtherSets(sets: array<set<int>>, n: int, i: int) returns (changed: bool)
    modifies sets
    ensures sets[..] == RemovedFromOthers(old(sets[..]), n, i)
    ensures changed <==> exists j :: 0 <= j < sets.Length && j != i && n in old(sets[j])
  {
    changed := false;
    for j := 0 to sets.Length
      invariant forall k :: 0 <= k < j ==> sets[k] == if k == i then old(sets[k]) else old(sets[k]) - {n}
      invariant forall k :: j <= k < sets.Length ==> sets[k] == old(sets[k])
      invariant changed <==> exists k :: 0 <= k < j && k != i && n in old(sets[k])
    {
      if i != j {
        if n in sets[j] {
          sets[j] := sets[j] - {n};
          changed := true;
        }
      }
    }
  }

  /** Every set of `a` is a subset of the matching set of `b`. */
  predicate Within(a: seq<set<int>>, b: seq<set<int>>) {
    |a| == |b| && forall j :: 0 <= j < |a| ==> a[j] <= b[j]
  }

  lemma WithinTrans(a: seq<set<int>>, b: seq<set<int>>, c: seq<set<int>>)
    requires Within(a, b) && Within(b, c)
    ensures Within(a, c)
  {
  }

  /** The total size of the sets. */
  function Total(sets: seq<set<int>>): nat {
    if sets == [] then 0 else |sets[0]| + Total(sets[1..])
  }

  /** Shrinking sets shrink the total, strictly when some set shrinks. */
  lemma {:induction false} TotalWithin(a: seq<set<int>>, b: seq<set<int>>)
    requires Within(a, b)
    ensures Total(a) <= Total(b)
    ensures a != b ==> Total(a) < Total(b)
  {
    if a != [] {
      assert Within(a[1..], b[1..]);
      TotalWithin(a[1..], b[1..]);
      SubsetCard(a[0], b[0]);
      if a[0] == b[0] && a[1..] == b[1..] {
        assert a == [a[0]] + a[1..] && b == [b[0]] + b[1..];
      }
    }
  }

  lemma SubsetCard(x: set<int>, y: set<int>)
    requires x <= y
    ensures |x| <= |y| && (x != y ==> |x| < |y|)
  {
    assert y == x + (y - x);
    assert |y| == |x| + |y - x|;
  }

  /** The element of a one-element set, `next(iter(s))`. */
  function Only(s: set<int>): (x: int)
    requires |s| == 1
    ensures x in s
  {
    OnlyUnique(s);
    var x :| x in s; x
  }

  lemma OnlyUnique(s: set<int>)
    requires |s| == 1
    ensures exists x :: x in s
    ensures forall x, y :: x in s && y in s ==> x == y
  {
    assert s != {};
    forall x, y | x in s && y in s ensures x == y {
      if x != y {
        assert {x, y} <= s;
        SubsetCard({x, y}, s);
      }
    }
  }

  lemma OnlyIs(s: set<int>, x: int)
    requires |s| == 1 && x in s
    ensures Only(s) == x && s == {x}
  {
    OnlyUnique(s);
    assert forall y :: y in s <==> y in {x};
  }

  /** One pass of the `while True` loop from set `i` on: every set that has one element left removes
   * it from the others; `changed` collects whether any pass removed anything. */
  function Pass(sets: seq<set<int>>, i: nat, changed: bool): (r: (seq<set<int>>, bool))
    requires i <= |sets|
    ensures |r.0| == |sets|
    decreases |sets| - i
  {
    if i == |sets| then (sets, changed)
    else if |sets[i]| == 1 then
      var next := RemovedFromOthers(sets, Only(sets[i]), i);
      Pass(next, i + 1, changed || next != sets)
    else Pass(sets, i + 1, changed)
  }

  /** A pass only shrinks the sets, and reports a change exactly when it made one. */
  lemma {:induction false} PassWithin(sets: seq<set<int>>, i: nat, changed: bool)
    requires i <= |sets|
    ensures Within(Pass(sets, i, changed).0, sets)
    ensures Pass(sets, i, changed).1 <==> changed || Pass(sets, i, changed).0 != sets
    decreases |sets| - i
  {
    if i < |sets| {
      if |sets[i]| == 1 {
        var next := RemovedFromOthers(sets, Only(sets[i]), i);
        RemovedFromOthersShape(sets, Only(sets[i]), i);
        PassWithin(next, i + 1, changed || next != sets);
        var res := Pass(next, i + 1, changed || next != sets).0;
        WithinTrans(res, next, sets);
        if res == sets {
          assert next == sets;
        }
      } else {
        PassWithin(sets, i + 1, changed);
      }
    }
  }

  /** The `while True` loop: passes until one changes nothing. */
  function Eliminate(sets: seq<set<int>>): (r: seq<set<int>>)
    ensures |r| == |sets|
    decreases Total(sets)
  {
    var (next, changed) := Pass(sets, 0, false);
    PassWithin(sets, 0, false);
    if !changed then next
    else
      TotalWithin(next, sets);
      Eliminate(next)
  }

  /** Elimination only shrinks the sets. */
  lemma {:induction false} EliminateWithin(sets: seq<set<int>>)
    ensures Within(Eliminate(sets), sets)
    decreases Total(sets)
  {
    var (next, changed) := Pass(sets, 0, false);
    PassWithin(sets, 0, false);
    if changed {
      TotalWithin(next, sets);
      EliminateWithin(next);
      WithinTrans(Eliminate(next), next, sets);
    }
  }

  /** No set with one element left shares it with another set. */
  predicate Exclusive(sets: seq<set<int>>) {
    forall j, k :: 0 <= j < |sets| && 0 <= k < |sets| && j != k && |sets[j]| == 1 ==> Only(sets[j]) !in sets[k]
  }

  /** A pass that changes nothing found every one-element set exclusive from `i` on. */
  lemma {:induction false} PassStable(sets: seq<set<int>>, i: nat)
    requires i <= |sets| && !Pass(sets, i, false).1
    ensures forall j, k :: i <= j < |sets| && 0 <= k < |sets| && j != k && |sets[j]| == 1 ==> Only(sets[j]) !in sets[k]
    decreases |sets| - i
  {
    if i < |sets| {
      if |sets[i]| == 1 {
        var next := RemovedFromOthers(sets, Only(sets[i]), i);
        RemovedFromOthersShape(sets, Only(sets[i]), i);
        PassWithin(next, i + 1, next != sets);
        assert next == sets;
        PassStable(sets, i + 1);
      } else {
        PassStable(sets, i + 1);
      }
    }
  }

  /** When elimination stops, every one-element set is exclusive. */
  lemma {:induction false} EliminateExclusive(sets: seq<set<int>>)
    ensures Exclusive(Eliminate(sets))
    decreases Total(sets)
  {
    var (next, changed) := Pass(sets, 0, false);
    PassWithin(sets, 0, false);
    if changed {
      TotalWithin(next, sets);
      EliminateExclusive(next);
    } else {
      assert next == sets;
      PassStable(sets, 0);
    }
  }

  /** `a` picks a different rule for every field, each among the field's possible rules. */
  predicate Solves(a: seq<int>, sets: seq<set<int>>) {
    |a| == |sets| &&
    (forall i :: 0 <= i < |a| ==> a[i] in sets[i]) &&
    (forall i, j :: 0 <= i < j < |a| ==> a[i] != a[j])
  }

  /** Removing a one-element set's element from the others loses no solution. */
  lemma RemovedKeeps(a: seq<int>, sets: seq<set<int>>, i: nat)
    requires Solves(a, sets) && i < |sets| && |sets[i]| == 1
    ensures Solves(a, RemovedFromOthers(sets, Only(sets[i]), i))
  {
    OnlyIs(sets[i], a[i]);
    var r := RemovedFromOthers(sets, Only(sets[i]), i);
    forall j | 0 <= j < |a| ensures a[j] in r[j] {
      if j != i {
        assert a[j] != a[i];
      }
    }
  }

  lemma {:induction false} PassKeeps(a: seq<int>, sets: seq<set<int>>, i: nat, changed: bool)
    requires Solves(a, sets) && i <= |sets|
    ensures Solves(a, Pass(sets, i, changed).0)
    decreases |sets| - i
  {
    if i < |sets| {
      if |sets[i]| == 1 {
        var next := RemovedFromOthers(sets, Only(sets[i]), i);
        RemovedKeeps(a, sets, i);
        PassKeeps(a, next, i + 1, changed || next != sets);
      } else {
        PassKeeps(a, sets, i + 1, changed);
      }
    }
  }

  /** Elimination keeps every way of giving each field its own possible rule. */
  lemma {:induction false} EliminateKeeps(a: seq<int>, sets: seq<set<int>>)
    requires Solves(a, sets)
    ensures Solves(a, Eliminate(sets))
    decreases Total(sets)
  {
    var (next, changed) := Pass(sets, 0, false);
    PassWithin(sets, 0, false);
    PassKeeps(a, sets, 0, false);
    if changed {
      TotalWithin(next, sets);
      EliminateKeeps(a, next);
    }
  }

  // ---------------------------------------------------------------- get_fields

  /** `{rules[next(iter(field))].name: your_ticket[i] for i, field in enumerate(sets[:k])}`. */
  function Assign(rules: seq<Rule>, ticket: seq<int>, sets: seq<set<int>>, k: nat): map<string, int>
    requires k <= |sets| == |ticket|
    requires forall i :: 0 <= i < |sets| ==> |sets[i]| == 1 && 0 <= Only(sets[i]) < |rules|
  {
    if k == 0 then map[]
    else Assign(rules, ticket, sets, k - 1)[rules[Only(sets[k - 1])].name := ticket[k - 1]]
  }

  /** The possible rules of each field once elimination has stopped. */
  function Resolved(input: Input): (r: seq<set<int>>)
    ensures |r| == |input.yourTicket|
    ensures forall i :: 0 <= i < |r| ==> r[i] <= Indices(|input.rules|)
  {
    var valid := ValidTickets(input.rules, input.nearbyTickets);
    var pruned := Pruned(input.rules, valid, |input.yourTicket|);
    EliminateWithin(pruned);
    Eliminate(pruned)
  }

  /** What `get_fields` returns: IndexError when a valid ticket is longer than yours (and there is a
   * rule to check), AssertionError when some field keeps other than one rule, and otherwise each
   * field's rule name mapped to your ticket's value. */
  function Fields(input: Input): Result<map<string, int>> {
    var valid := ValidTickets(input.rules, input.nearbyTickets);
    var width := |input.yourTicket|;
    if |input.rules| > 0 && exists k :: 0 <= k < |valid| && |valid[k]| > width then Err("IndexError")
    else
      var sets := Resolved(input);
      if exists i :: 0 <= i < |sets| && |sets[i]| != 1 then Err("AssertionError")
      else Ok(Assign(input.rules, input.yourTicket, sets, width))
  }

  /** Whether the pruning loops, at rule `ruleNum`, ticket `t` and field `fieldNum`, still hold rule
   * `q` possible for field `f`: the earlier rules passed every ticket, the current rule passed the
   * earlier tickets and the earlier fields of this one. */
  ghost predicate Keeps(rules: seq<Rule>, valid: seq<seq<int>>, q: int, f: nat, ruleNum: nat, t: nat, fieldNum: nat)
    requires t <= |valid|
  {
    0 <= q < |rules| &&
    (q < ruleNum ==> PassesAll(rules[q], valid, |valid|, f)) &&
    (q == ruleNum ==> PassesAll(rules[q], valid, t, f) && (t < |valid| && f < fieldNum ==> FieldPasses(rules[q], valid[t], f)))
  }

  lemma KeepsNextField(rules: seq<Rule>, valid: seq<seq<int>>, ruleNum: nat, t: nat, fieldNum: nat)
    requires ruleNum < |rules| && t < |valid| && fieldNum < |valid[t]|
    ensures forall f: nat, q :: Keeps(rules, valid, q, f, ruleNum, t, fieldNum + 1) <==>
      Keeps(rules, valid, q, f, ruleNum, t, fieldNum) &&
      !(f == fieldNum && q == ruleNum && !PassesRule(rules[ruleNum], valid[t][fieldNum]))
  {
  }

  lemma KeepsNextTicket(rules: seq<Rule>, valid: seq<seq<int>>, ruleNum: nat, t: nat)
    requires ruleNum < |rules| && t < |valid|
    ensures forall f: nat, q :: Keeps(rules, valid, q, f, ruleNum, t + 1, 0) <==> Keeps(rules, valid, q, f, ruleNum, t, |valid[t]|)
  {
    forall f: nat, q ensures Keeps(rules, valid, q, f, ruleNum, t + 1, 0) <==> Keeps(rules, valid, q, f, ruleNum, t, |valid[t]|) {
      if 0 <= q < |rules| {
        assert PassesAll(rules[q], valid, t + 1, f) <==> PassesAll(rules[q], valid, t, f) && FieldPasses(rules[q], valid[t], f);
      }
    }
  }

  lemma KeepsNextRule(rules: seq<Rule>, valid: seq<seq<int>>, ruleNum: nat)
    requires ruleNum < |rules|
    ensures forall f: nat, q :: Keeps(rules, valid, q, f, ruleNum + 1, 0, 0) <==> Keeps(rules, valid, q, f, ruleNum, |valid|, 0)
  {
  }

  lemma KeepsPossible(rules: seq<Rule>, valid: seq<seq<int>>, f: nat)
    ensures forall q :: Keeps(rules, valid, q, f, |rules|, 0, 0) <==> q in Possible(rules, valid, f)
  {
  }

  /** The pruning loops of `get_fields`: every rule against every field of every valid ticket;
   * they fail, with `IndexError`, exactly when some ticket is longer than yours. */
  method PruneSets(rules: seq<Rule>, valid: seq<seq<int>>, width: nat) returns (ok: bool, possible: array<set<int>>)
    ensures fresh(possible) && possible.Length == width
    ensures ok <==> !(|rules| > 0 && exists k :: 0 <= k < |valid| && |valid[k]| > width)
    ensures ok ==> possible[..] == Pruned(rules, valid, width)
  {
    possible := new set<int>[width](_ => Indices(|rules|));
    for ruleNum := 0 to |rules|
      invariant forall f, q :: 0 <= f < width ==> (q in possible[f] <==> Keeps(rules, valid, q, f, ruleNum, 0, 0))
      invariant ruleNum > 0 ==> forall k :: 0 <= k < |valid| ==> |valid[k]| <= width
    {
      for t := 0 to |valid|
        invariant forall f, q :: 0 <= f < width ==> (q in possible[f] <==> Keeps(rules, valid, q, f, ruleNum, t, 0))
        invariant forall k :: 0 <= k < t ==> |valid[k]| <= width
      {
        var ticket := valid[t];
        for fieldNum := 0 to |ticket|
          invariant fieldNum <= width
          invariant forall f, q :: 0 <= f < width ==> (q in possible[f] <==> Keeps(rules, valid, q, f, ruleNum, t, fieldNum))
        {
          if fieldNum >= width {
            return false, possible;
          }
          var field := ticket[fieldNum];
          KeepsNextField(rules, valid, ruleNum, t, fieldNum);
          if ruleNum in possible[fieldNum] && !PassesRule(rules[ruleNum], field) {
            possible[fieldNum] := possible[fieldNum] - {ruleNum};
          }
        }
        KeepsNextTicket(rules, valid, ruleNum, t);
      }
      KeepsNextRule(rules, valid, ruleNum);
    }
    assert possible[..] == Pruned(rules, valid, width) by {
      forall f | 0 <= f < width ensures possible[f] == Possible(rules, valid, f) {
        KeepsPossible(rules, valid, f);
        assert forall q :: q in possible[f] <==> q in Possible(rules, valid, f);
      }
    }
    ok := true;
  }

  /** The elimination loop of `get_fields`: passes until one changes nothing. */
  method EliminateSets(possible: array<set<int>>)
    modifies possible
    ensures possible[..] == Eliminate(old(possible[..]))
  {
    ghost var pruned := possible[..];
    while true
      invariant Eliminate(possible[..]) == Eliminate(pruned)
      decreases Total(possible[..])
    {
      ghost var start := possible[..];
      var changed := false;
      for i := 0 to possible.Length
        invariant Pass(start, 0, false) == Pass(possible[..], i, changed)
      {
        if |possible[i]| == 1 {
          var x :| x in possible[i];
          OnlyIs(possible[i], x);
          RemovedFromOthersShape(possible[..], x, i);
          var removed := RemoveFromOtherSets(possible, x, i);
          changed := changed || removed;
        }
      }
      PassWithin(start, 0, false);
      if !changed {
        break;
      }
      TotalWithin(possible[..], start);
    }
  }

  /** `get_fields`: prune each field's possible rules by every valid ticket, eliminate until a pass
   * changes nothing, check that each field kept one rule and map the rules' names to your ticket. */
  method GetFields(input: Input) returns (r: Result<map<string, int>>)
    ensures r == Fields(input)
  {
    var rules := input.rules;
    var valid := ValidTickets(rules, input.nearbyTickets);
    var width := |input.yourTicket|;
    var ok, possible := PruneSets(rules, valid, width);
    if !ok {
      return Err("IndexError");
    }
    EliminateSets(possible);
    var sets := possible[..];
    assert sets == Resolved(input);
    if exists i :: 0 <= i < width && |possible[i]| != 1 {
      return Err("AssertionError");
    }
    return Ok(Assign(rules, input.yourTicket, sets, width));
  }

  /** Give each field of a successful `get_fields` its one remaining rule. */
  function Chosen(input: Input): (a: seq<int>)
    requires Fields(input).Ok?
    ensures |a| == |input.yourTicket|
    ensures forall i :: 0 <= i < |a| ==> Resolved(input)[i] == {a[i]} && 0 <= a[i] < |input.rules|
  {
    var sets := Resolved(input);
    var a := seq(|sets|, i requires 0 <= i < |sets| => Only(sets[i]));
    assert forall i :: 0 <= i < |a| ==> a[i] in Indices(|input.rules|);
    forall i | 0 <= i < |a| ensures sets[i] == {a[i]} {
      OnlyIs(sets[i], a[i]);
    }
    a
  }

  /** A successful `get_fields` gives every field its own rule, one that field of every valid ticket
   * passes. */
  lemma FieldsSound(input: Input)
    requires Fields(input).Ok?
    ensures Solves(Chosen(input), Pruned(input.rules, ValidTickets(input.rules, input.nearbyTickets), |input.yourTicket|))
    ensures forall i, t :: 0 <= i < |input.yourTicket| && t in ValidTickets(input.rules, input.nearbyTickets) && i < |t| ==>
      PassesRule(input.rules[Chosen(input)[i]], t[i])
  {
    var a := Chosen(input);
    var valid := ValidTickets(input.rules, input.nearbyTickets);
    var pruned := Pruned(input.rules, valid, |input.yourTicket|);
    var sets := Resolved(input);
    EliminateWithin(pruned);
    EliminateExclusive(pruned);
    forall i, j | 0 <= i < j < |a| ensures a[i] != a[j] {
      OnlyIs(sets[i], a[i]);
      assert a[i] !in sets[j];
    }
    forall i, t | 0 <= i < |a| && t in valid && i < |t| ensures PassesRule(input.rules[a[i]], t[i]) {
      assert a[i] in pruned[i];
      PrunedExactly(input.rules, input.nearbyTickets, |input.yourTicket|, i, a[i]);
    }
  }

  /** A successful `get_fields` finds the only way to give each field its own possible rule. */
  lemma FieldsUnique(input: Input, a: seq<int>)
    requires Fields(input).Ok?
    requires Solves(a, Pruned(input.rules, ValidTickets(input.rules, input.nearbyTickets), |input.yourTicket|))
    ensures a == Chosen(input)
  {
    var valid := ValidTickets(input.rules, input.nearbyTickets);
    EliminateKeeps(a, Pruned(input.rules, valid, |input.yourTicket|));
    var c := Chosen(input);
    assert forall i :: 0 <= i < |a| ==> a[i] in {c[i]};
  }

  /** With distinct rule names, the map names each field's rule and gives it your ticket's value. */
  lemma FieldsMap(input: Input)
    requires Fields(input).Ok?
    requires forall p, q :: 0 <= p < q < |input.rules| ==> input.rules[p].name != input.rules[q].name
    ensures forall n :: n in Fields(input).value <==>
      exists i :: 0 <= i < |Chosen(input)| && input.rules[Chosen(input)[i]].name == n
    ensures forall i :: 0 <= i < |Chosen(input)| ==>
      Fields(input).value[input.rules[Chosen(input)[i]].name] == input.yourTicket[i]
  {
    FieldsSound(input);
    var a := Chosen(input);
    var sets := Resolved(input);
    AssignAt(input.rules, input.yourTicket, sets, a, |a|);
    AssignKeys(input.rules, input.yourTicket, sets, |a|);
  }

  lemma {:induction false} AssignAt(rules: seq<Rule>, ticket: seq<int>, sets: seq<set<int>>, a: seq<int>, k: nat)
    requires k <= |sets| == |ticket| == |a|
    requires forall i :: 0 <= i < |sets| ==> sets[i] == {a[i]} && 0 <= a[i] < |rules|
    requires forall i, j :: 0 <= i < j < |a| ==> a[i] != a[j]
    requires forall p, q :: 0 <= p < q < |rules| ==> rules[p].name != rules[q].name
    ensures forall i :: 0 <= i < |sets| ==> |sets[i]| == 1 && Only(sets[i]) == a[i]
    ensures forall i :: 0 <= i < k ==> rules[a[i]].name in Assign(rules, ticket, sets, k)
    ensures forall i :: 0 <= i < k ==> Assign(rules, ticket, sets, k)[rules[a[i]].name] == ticket[i]
  {
    forall i | 0 <= i < |sets| ensures |sets[i]| == 1 && Only(sets[i]) == a[i] {
      OnlyIs(sets[i], a[i]);
    }
    if k > 0 {
      AssignAt(rules, ticket, sets, a, k - 1);
      forall i | 0 <= i < k - 1 ensures rules[a[i]].name != rules[a[k - 1]].name {
        if a[i] < a[k - 1] {
        } else {
          assert a[k - 1] < a[i];
        }
      }
    }
  }

  /** The map's keys are the chosen rules' names. */
  lemma {:induction false} AssignKeys(rules: seq<Rule>, ticket: seq<int>, sets: seq<set<int>>, k: nat)
    requires k <= |sets| == |ticket|
    requires forall i :: 0 <= i < |sets| ==> |sets[i]| == 1 && 0 <= Only(sets[i]) < |rules|
    ensures forall n :: n in Assign(rules, ticket, sets, k) <==> exists i :: 0 <= i < k && rules[Only(sets[i])].name == n
  {
    if k > 0 {
      AssignKeys(rules, ticket, sets, k - 1);
    }
  }

  // ---------------------------------------------------------------- the test

  /** The rules of the test input. */
  predicate IsTestRules(rules: seq<Rule>) {
    rules == [
      Rule("class", [Range(1, 4), Range(5, 8)]),
      Rule("row", [Range(6, 12), Range(33, 45)]),
      Rule("seat", [Range(13, 41), Range(45, 51)])]
  }

  /** The test rules together accept 1-3, 5-11 and 13-50. */
  lemma TestRulesAccept(rules: seq<Rule>, n: int)
    requires IsTestRules(rules)
    ensures PassesAnyRule(rules, n) <==> (1 <= n < 4 || 5 <= n < 12 || 13 <= n < 51)
  {
    AnyThreeRules(rules, n);
    AnyTwo(rules[0].ranges, n);
    AnyTwo(rules[1].ranges, n);
    AnyTwo(rules[2].ranges, n);
  }

  /** The rate of one test ticket, from which of its three values the rules accept. */
  lemma TestTicketRate(rules: seq<Rule>, t: seq<int>, invalid: seq<int>)
    requires IsTestRules(rules) && |t| == 3
    requires invalid ==
      (if 1 <= t[0] < 4 || 5 <= t[0] < 12 || 13 <= t[0] < 51 then [] else [t[0]]) +
      (if 1 <= t[1] < 4 || 5 <= t[1] < 12 || 13 <= t[1] < 51 then [] else [t[1]]) +
      (if 1 <= t[2] < 4 || 5 <= t[2] < 12 || 13 <= t[2] < 51 then [] else [t[2]])
    ensures InvalidFields(rules, t) == invalid
  {
    TestRulesAccept(rules, t[0]);
    TestRulesAccept(rules, t[1]);
    TestRulesAccept(rules, t[2]);
    InvalidThree(rules, t);
  }

  /** The four nearby tickets of the test input have error rates (False, 0), (True, 4), (True, 55)
   * and (True, 12). */
  lemma TestErrorRates(rules: seq<Rule>)
    requires IsTestRules(rules)
    ensures ErrorRate(rules, [7, 3, 47]) == (false, 0)
    ensures ErrorRate(rules, [40, 4, 50]) == (true, 4)
    ensures ErrorRate(rules, [55, 2, 20]) == (true, 55)
    ensures ErrorRate(rules, [38, 6, 12]) == (true, 12)
  {
    TestTicketRate(rules, [7, 3, 47], []);
    TestTicketRate(rules, [40, 4, 50], [4]);
    TestTicketRate(rules, [55, 2, 20], [55]);
    TestTicketRate(rules, [38, 6, 12], [12]);
    assert Py.Sum([4]) == 4 && Py.Sum([55]) == 55 && Py.Sum([12]) == 12;
  }

  // ---------------------------------------------------------------- the puzzle's second example

  /** The rules, your ticket and the nearby tickets of the puzzle's second example. */
  predicate IsSecondExample(input: Input) {
    input == Input(
      [Rule("class", [Range(0, 2), Range(4, 20)]),
       Rule("row", [Range(0, 6), Range(8, 20)]),
       Rule("seat", [Range(0, 14), Range(16, 20)])],
      [11, 12, 13],
      [[3, 9, 18], [15, 1, 5], [5, 14, 9]])
  }

  lemma SecondRules(input: Input, n: int)
    requires IsSecondExample(input)
    ensures PassesRule(input.rules[0], n) <==> (0 <= n < 2 || 4 <= n < 20)
    ensures PassesRule(input.rules[1], n) <==> (0 <= n < 6 || 8 <= n < 20)
    ensures PassesRule(input.rules[2], n) <==> (0 <= n < 14 || 16 <= n < 20)
    ensures PassesAnyRule(input.rules, n) <==> 0 <= n < 20
  {
    AnyTwo(input.rules[0].ranges, n);
    AnyTwo(input.rules[1].ranges, n);
    AnyTwo(input.rules[2].ranges, n);
    AnyThreeRules(input.rules, n);
  }

  lemma ValidThree(rules: seq<Rule>, tickets: seq<seq<int>>)
    requires |tickets| == 3
    requires forall j :: 0 <= j < 3 ==> !ErrorRate(rules, tickets[j]).0
    ensures ValidTickets(rules, tickets) == tickets
  {
    var t1 := tickets[1..];
    var t2 := t1[1..];
    assert t2[1..] == [];
    assert ValidTickets(rules, t2) == [tickets[2]] + ValidTickets(rules, t2[1..]);
    assert ValidTickets(rules, t1) == [tickets[1]] + ValidTickets(rules, t2);
    assert tickets == [tickets[0], tickets[1], tickets[2]];
  }

  lemma SecondValid(input: Input)
    requires IsSecondExample(input)
    ensures ValidTickets(input.rules, input.nearbyTickets) == input.nearbyTickets
  {
    var tickets := input.nearbyTickets;
    forall j | 0 <= j < 3 ensures !ErrorRate(input.rules, tickets[j]).0 {
      var t := tickets[j];
      SecondRules(input, t[0]);
      SecondRules(input, t[1]);
      SecondRules(input, t[2]);
      InvalidThree(input.rules, t);
    }
    ValidThree(input.rules, tickets);
  }

  lemma PassesAllThree(rule: Rule, tickets: seq<seq<int>>, f: nat)
    requires |tickets| == 3
    ensures PassesAll(rule, tickets, 3, f) ==
      (FieldPasses(rule, tickets[0], f) && FieldPasses(rule, tickets[1], f) && FieldPasses(rule, tickets[2], f))
  {
  }

  /** Field 0 reads 3, 15, 5; field 1 reads 9, 1, 14; field 2 reads 18, 5, 9. */
  lemma SecondPruned(input: Input)
    requires IsSecondExample(input)
    ensures Pruned(input.rules, input.nearbyTickets, 3) == [{1}, {0, 1}, {0, 1, 2}]
  {
    var rules, tickets := input.rules, input.nearbyTickets;
    var expected: seq<set<int>> := [{1}, {0, 1}, {0, 1, 2}];
    forall f | 0 <= f < 3 ensures Possible(rules, tickets, f) == expected[f] {
      SecondRules(input, tickets[0][f]);
      SecondRules(input, tickets[1][f]);
      SecondRules(input, tickets[2][f]);
      forall q | 0 <= q < 3 ensures PassesAll(rules[q], tickets, 3, f) <==> q in expected[f] {
        PassesAllThree(rules[q], tickets, f);
      }
      assert forall q :: q in Possible(rules, tickets, f) <==> q in expected[f];
    }
  }

  lemma RemovedThree(sets: seq<set<int>>, n: int, i: int, r: seq<set<int>>)
    requires |sets| == 3 && |r| == 3
    requires forall j :: 0 <= j < 3 ==> r[j] == if j == i then sets[j] else sets[j] - {n}
    ensures RemovedFromOthers(sets, n, i) == r
  {
  }

  /** Row is settled first, then class, then seat; a second pass changes nothing. */
  lemma SecondEliminate()
    ensures Eliminate([{1}, {0, 1}, {0, 1, 2}]) == [{1}, {0}, {2}]
  {
    var p0: seq<set<int>> := [{1}, {0, 1}, {0, 1, 2}];
    var p1: seq<set<int>> := [{1}, {0}, {0, 2}];
    var p2: seq<set<int>> := [{1}, {0}, {2}];
    OnlyIs({1}, 1);
    OnlyIs({0}, 0);
    OnlyIs({2}, 2);
    assert |p0[0]| == 1 && |p1[1]| == 1 && |p2[2]| == 1 && |p2[0]| == 1 && |p2[1]| == 1;
    RemovedThree(p0, 1, 0, p1);
    RemovedThree(p1, 0, 1, p2);
    RemovedThree(p2, 2, 2, p2);
    RemovedThree(p2, 1, 0, p2);
    RemovedThree(p2, 0, 1, p2);
    assert p1 != p0 by {
      assert p1[1] != p0[1] by {
        assert 1 in p0[1];
      }
    }
    assert p2 != p1 by {
      assert p2[2] != p1[2] by {
        assert 0 in p1[2];
      }
    }
    assert Pass(p2, 2, true) == Pass(p2, 3, true);
    assert Pass(p1, 1, true) == Pass(p2, 2, true);
    assert Pass(p0, 0, false) == (p2, true);
    assert Pass(p2, 2, false) == Pass(p2, 3, false);
    assert Pass(p2, 1, false) == Pass(p2, 2, false);
    assert Pass(p2, 0, false) == (p2, false);
    assert Eliminate(p2) == p2;
  }

  /** The example resolves to class 12, row 11 and seat 13. */
  lemma SecondFields(input: Input)
    requires IsSecondExample(input)
    ensures Fields(input) == Ok(map["class" := 12, "row" := 11, "seat" := 13])
  {
    var sets: seq<set<int>> := [{1}, {0}, {2}];
    SecondResolved(input);
    SecondWidths(input);
    SecondAssign(input.rules, input.yourTicket, sets);
    FieldsFrom(input, sets);
  }

  lemma SecondResolved(input: Input)
    requires IsSecondExample(input)
    ensures Resolved(input) == [{1}, {0}, {2}]
  {
    SecondValid(input);
    SecondPruned(input);
    SecondEliminate();
  }

  lemma SecondWidths(input: Input)
    requires IsSecondExample(input)
    ensures forall t :: t in ValidTickets(input.rules, input.nearbyTickets) ==> |t| <= |input.yourTicket|
  {
    SecondValid(input);
  }

  lemma FieldsFrom(input: Input, sets: seq<set<int>>)
    requires Resolved(input) == sets
    requires forall t :: t in ValidTickets(input.rules, input.nearbyTickets) ==> |t| <= |input.yourTicket|
    requires forall i :: 0 <= i < |sets| ==> |sets[i]| == 1
    ensures Fields(input) == Ok(Assign(input.rules, input.yourTicket, sets, |sets|))
  {
    var valid := ValidTickets(input.rules, input.nearbyTickets);
    assert forall k :: 0 <= k < |valid| ==> valid[k] in valid;
    assert !exists k :: 0 <= k < |valid| && |valid[k]| > |input.yourTicket|;
    assert !exists i :: 0 <= i < |sets| && |sets[i]| != 1;
  }

  lemma SecondAssign(rules: seq<Rule>, ticket: seq<int>, sets: seq<set<int>>)
    requires rules == [Rule("class", [Range(0, 2), Range(4, 20)]), Rule("row", [Range(0, 6), Range(8, 20)]),
      Rule("seat", [Range(0, 14), Range(16, 20)])]
    requires ticket == [11, 12, 13] && sets == [{1}, {0}, {2}]
    ensures forall i :: 0 <= i < |sets| ==> |sets[i]| == 1 && 0 <= Only(sets[i]) < |rules|
    ensures Assign(rules, ticket, sets, 3) == map["class" := 12, "row" := 11, "seat" := 13]
  {
    OnlyIs({1}, 1);
    OnlyIs({0}, 0);
    OnlyIs({2}, 2);
    assert Assign(rules, ticket, sets, 1) == map["row" := 11];
    assert Assign(rules, ticket, sets, 2) == map["row" := 11, "class" := 12];
  }
}
