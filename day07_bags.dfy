/**
 * Day 7 (07/07.py): rules saying which bags each bag type holds directly,
 * which bags can end up inside which, and how many bags one bag holds.
 */
module Bags {
  import opened Base
  import Py

  /** `RuleChild(bag_type, count)`; counts come from digit strings, so they are natural. */
  datatype Child = Child(bagType: string, count: nat)

  type Rules = map<string, seq<Child>>

  // ---------------------------------------------------------------- parsing

  /** `re.fullmatch('(.+) bags?', t)`: the name before a final " bags" or " bag" (`.` excludes newlines). */
  function BagTypeOf(t: string): (r: Option<string>)
    ensures r.Some? ==> r.value != [] && '\n' !in r.value && (t == r.value + " bags" || t == r.value + " bag")
  {
    if |t| > 5 && Py.EndsWith(t, " bags") && '\n' !in t[..|t| - 5] then
      assert t == t[..|t| - 5] + " bags";
      Some(t[..|t| - 5])
    else if |t| > 4 && Py.EndsWith(t, " bag") && '\n' !in t[..|t| - 4] then
      assert t == t[..|t| - 4] + " bag";
      Some(t[..|t| - 4])
    else None
  }

  /** Every non-empty name is matched back out of "name bag" and "name bags". */
  lemma BagTypeOfPhrase(name: string, plural: bool)
    requires name != [] && '\n' !in name
    ensures BagTypeOf(name + if plural then " bags" else " bag") == Some(name)
  {
    var t := name + if plural then " bags" else " bag";
    if plural {
      assert t[..|t| - 5] == name;
    } else {
      assert t[..|t| - 4] == name;
      assert t[|t| - 1] == 'g';
    }
  }

  /** `parse_bag_type`: strip, then match; a failed match raises (AttributeError on None). */
  function ParseBagType(s: string): (r: Result<string>)
    ensures r.Ok? <==> BagTypeOf(Py.Strip(s)).Some?
    ensures r.Ok? ==> r.value == BagTypeOf(Py.Strip(s)).value
  {
    match BagTypeOf(Py.Strip(s))
    case None => Err("AttributeError")
    case Some(name) => Ok(name)
  }

  /** `parse_bag_type_with_count`: strip, drop trailing '.', then `([0-9]+) (.+) bags?`. */
  function ParseBagTypeWithCount(s: string): Result<(string, nat)> {
    ParseCountText(Py.RStripChar(Py.Strip(s), '.'))
  }

  /** The match `([0-9]+) (.+) bags?` on the stripped text. */
  function ParseCountText(t: string): Result<(string, nat)> {
    var i := Py.DigitsEnd(t, 0);
    if i == 0 || i == |t| || t[i] != ' ' then Err("AttributeError")
    else match BagTypeOf(t[i + 1..])
      case None => Err("AttributeError")
      case Some(name) => Ok((name, Py.DigitsValue(t[..i])))
  }

  /** A parsed count phrase is digits, a space and the bag name with " bag" or " bags". */
  lemma ParsedCountPhrase(s: string)
    requires ParseBagTypeWithCount(s).Ok?
    ensures var t := Py.RStripChar(Py.Strip(s), '.');
            var d := t[..Py.DigitsEnd(t, 0)];
            CountPhrase(t, d, ParseBagTypeWithCount(s).value.0) && Py.DigitsValue(d) == ParseBagTypeWithCount(s).value.1
  {
    ParsedCountText(Py.RStripChar(Py.Strip(s), '.'));
  }

  lemma ParsedCountText(t: string)
    requires ParseCountText(t).Ok?
    ensures var d := t[..Py.DigitsEnd(t, 0)];
            CountPhrase(t, d, ParseCountText(t).value.0) && Py.DigitsValue(d) == ParseCountText(t).value.1
  {
    var i := Py.DigitsEnd(t, 0);
    assert 0 < i < |t| && t[i] == ' ';
    var name := BagTypeOf(t[i + 1..]);
    assert name.Some? && ParseCountText(t) == Ok((name.value, Py.DigitsValue(t[..i])));
    DigitsPrefix(t, i);
    CountPhraseOf(t, i, name.value);
  }

  lemma DigitsPrefix(t: string, i: nat)
    requires i == Py.DigitsEnd(t, 0) && i <= |t|
    ensures Py.AllDigits(t[..i])
  {
    forall j | 0 <= j < i ensures Py.IsDigit(t[..i][j]) {
      assert t[..i][j] == t[j];
    }
  }

  /** `t` is the digits `d`, a space and "name bag" or "name bags". */
  predicate CountPhrase(t: string, d: string, name: string) {
    d != [] && Py.AllDigits(d) && name != [] && (t == d + " " + name + " bags" || t == d + " " + name + " bag")
  }

  lemma CountPhraseOf(t: string, i: nat, name: string)
    requires 0 < i < |t| && t[i] == ' ' && Py.AllDigits(t[..i]) && BagTypeOf(t[i + 1..]) == Some(name)
    ensures CountPhrase(t, t[..i], name)
  {
    assert t == t[..i] + " " + t[i + 1..];
  }

  /** "N name bag(s)" parses to (name, N). */
  lemma ParseCountPhrase(d: string, name: string, plural: bool)
    requires d != [] && Py.AllDigits(d) && name != [] && '\n' !in name
    ensures ParseBagTypeWithCount(d + " " + name + if plural then " bags" else " bag") == Ok((name, Py.DigitsValue(d)))
  {
    var tail := if plural then " bags" else " bag";
    var rest := name + tail;
    var s := d + " " + rest;
    assert s == d + " " + name + tail;
    assert Py.Strip(s) == s by {
      assert Py.RStrip(s) == s by { assert s[|s| - 1] == tail[|tail| - 1]; }
      assert Py.IsDigit(s[0]) by { assert s[0] == d[0]; }
    }
    assert Py.RStripChar(s, '.') == s by { assert s[|s| - 1] == tail[|tail| - 1]; }
    BagTypeOfPhrase(name, plural);
    CountSteps(s, d, rest, name);
  }

  /** The steps of `parse_bag_type_with_count` on a text that needs no stripping. */
  lemma CountSteps(s: string, d: string, rest: string, name: string)
    requires s == d + " " + rest && d != [] && Py.AllDigits(d)
    requires Py.RStripChar(Py.Strip(s), '.') == s && BagTypeOf(rest) == Some(name)
    ensures ParseBagTypeWithCount(s) == Ok((name, Py.DigitsValue(d)))
  {
    CountTextSteps(s, d, rest, name);
  }

  lemma CountTextSteps(s: string, d: string, rest: string, name: string)
    requires s == d + " " + rest && d != [] && Py.AllDigits(d) && BagTypeOf(rest) == Some(name)
    ensures ParseCountText(s) == Ok((name, Py.DigitsValue(d)))
  {
    assert s[..|d|] == d && s[|d|] == ' ' && s[|d| + 1..] == rest;
    assert Py.DigitsEnd(s, 0) == |d| by {
      forall j | 0 <= j < |d| ensures s[j] == d[j] { }
    }
  }

  /** One piece of the children list as a `RuleChild`. */
  function ParseChild(piece: string): Result<Child> {
    match ParseBagTypeWithCount(piece)
    case Err(m) => Err(m)
    case Ok((name, n)) => Ok(Child(name, n))
  }

  /** The children, parsed piece by piece; the first failing piece raises. */
  function ParseChildren(pieces: seq<string>): Result<seq<Child>> {
    MapResult(ParseChild, pieces)
  }

  /** `parse_rule`: exactly one " contain " (else the unpacking raises), then "no other bags." or a
   * comma-separated list of counted bags. */
  function ParseRule(rule: string): (r: Result<(string, seq<Child>)>) {
    var parts := Py.Split(Py.RStrip(rule), " contain ");
    if |parts| != 2 then Err("ValueError")
    else
      var bagType :- ParseBagType(parts[0]);
      if parts[1] == "no other bags." then Ok((bagType, []))
      else
        var children :- ParseChildren(Py.Split(parts[1], ","));
        Ok((bagType, children))
  }

  /** A parsed rule has two sides around " contain ": the bag and either "no other bags." with no
   * children, or the list of children. */
  lemma ParsedRule(rule: string)
    requires ParseRule(rule).Ok?
    ensures var parts := Py.Split(Py.RStrip(rule), " contain ");
            var r := ParseRule(rule).value;
            |parts| == 2 && ParseBagType(parts[0]) == Ok(r.0)
            && (parts[1] == "no other bags." ==> r.1 == [])
            && (parts[1] != "no other bags." ==> ParseChildren(Py.Split(parts[1], ",")) == Ok(r.1))
  {
    var parts := Py.Split(Py.RStrip(rule), " contain ");
    assert |parts| == 2;
    var bagType := ParseBagType(parts[0]);
    assert bagType.Ok? && ParseRule(rule).value.0 == bagType.value;
    if parts[1] != "no other bags." {
      var children := ParseChildren(Py.Split(parts[1], ","));
      assert children.Ok? && ParseRule(rule).value.1 == children.value;
    }
  }

  /** "... contain no other bags." gives no children. */
  lemma NoOtherBags(a: string, b: string)
    requires Py.Split(Py.RStrip(a + " contain " + b), " contain ") == [a, "no other bags."]
    requires ParseBagType(a).Ok?
    ensures ParseRule(a + " contain " + b) == Ok((ParseBagType(a).value, []))
  {
  }

  /** The dictionary comprehension: pairs entered in order, a later pair for the same key replacing an earlier one. */
  function ToMap(pairs: seq<(string, seq<Child>)>): (m: Rules)
    ensures forall k :: k in m <==> exists i :: 0 <= i < |pairs| && pairs[i].0 == k
  {
    if pairs == [] then map[]
    else
      var init := pairs[..|pairs| - 1];
      var m0 := ToMap(init);
      assert forall i :: 0 <= i < |init| ==> init[i] == pairs[i];
      m0[pairs[|pairs| - 1].0 := pairs[|pairs| - 1].1]
  }

  /** Each key holds the value of its last pair. */
  lemma {:induction false} ToMapLastWins(pairs: seq<(string, seq<Child>)>, i: nat)
    requires i < |pairs| && forall j :: i < j < |pairs| ==> pairs[j].0 != pairs[i].0
    ensures ToMap(pairs)[pairs[i].0] == pairs[i].1
  {
    if i < |pairs| - 1 {
      var init := pairs[..|pairs| - 1];
      assert forall j :: 0 <= j < |init| ==> init[j] == pairs[j];
      ToMapLastWins(init, i);
    }
  }

  /** `parse_input`: every line parsed as a rule (the first failure raises), then collected by bag type. */
  function ParseInput(lines: seq<string>): Result<Rules> {
    match MapResult(ParseRule, lines)
    case Err(e) => Err(e)
    case Ok(pairs) => Ok(ToMap(pairs))
  }

  // ---------------------------------------------------------------- containment as the script runs it

  function ChildTypes(cs: seq<Child>): set<string> {
    set i | 0 <= i < |cs| :: cs[i].bagType
  }

  /** A chain of bag types, each directly holding the next. */
  predicate IsPath(rules: Rules, path: seq<string>) {
    |path| >= 2 && forall i :: 0 <= i < |path| - 1 ==> path[i] in rules && path[i + 1] in ChildTypes(rules[path[i]])
  }

  /**
   * `can_contain(rules, parent, child)` with at most `fuel` nested calls: KeyError for a bag without a
   * rule, True for a direct child of that type, otherwise the children asked in order until one says True.
   * `None` means the calls go deeper than `fuel`; on a cycle they do so for every fuel (a RecursionError).
   */
  function CanContainRun(rules: Rules, parent: string, child: string, fuel: nat): Option<Result<bool>>
    decreases fuel, 0, 0
  {
    if fuel == 0 then None
    else if parent !in rules then Some(Err("KeyError"))
    else if exists i :: 0 <= i < |rules[parent]| && rules[parent][i].bagType == child then Some(Ok(true))
    else AnyCanContain(rules, rules[parent], child, fuel - 1)
  }

  /** `any(can_contain(rules, c.bag_type, child) for c in cs)`: stops at the first True or exception. */
  function AnyCanContain(rules: Rules, cs: seq<Child>, child: string, fuel: nat): Option<Result<bool>>
    decreases fuel, 1, |cs|
  {
    if cs == [] then Some(Ok(false))
    else match CanContainRun(rules, cs[0].bagType, child, fuel)
      case None => None
      case Some(Err(e)) => Some(Err(e))
      case Some(Ok(true)) => Some(Ok(true))
      case Some(Ok(false)) => AnyCanContain(rules, cs[1..], child, fuel)
  }

  /** An answer, once reached, is the answer for every larger fuel. */
  lemma {:induction false} CanContainMoreFuel(rules: Rules, parent: string, child: string, f: nat, g: nat)
    requires f <= g && CanContainRun(rules, parent, child, f).Some?
    ensures CanContainRun(rules, parent, child, g) == CanContainRun(rules, parent, child, f)
    decreases f, 0, 0
  {
    if parent in rules && !exists i :: 0 <= i < |rules[parent]| && rules[parent][i].bagType == child {
      AnyMoreFuel(rules, rules[parent], child, f - 1, g - 1);
    }
  }

  lemma {:induction false} AnyMoreFuel(rules: Rules, cs: seq<Child>, child: string, f: nat, g: nat)
    requires f <= g && AnyCanContain(rules, cs, child, f).Some?
    ensures AnyCanContain(rules, cs, child, g) == AnyCanContain(rules, cs, child, f)
    decreases f, 1, |cs|
  {
    if cs != [] {
      CanContainMoreFuel(rules, cs[0].bagType, child, f, g);
      if CanContainRun(rules, cs[0].bagType, child, f) == Some(Ok(false)) {
        AnyMoreFuel(rules, cs[1..], child, f, g);
      }
    }
  }

  /** True comes only from a chain of one or more child edges from parent to child. */
  lemma {:induction false} CanContainHasPath(rules: Rules, parent: string, child: string, fuel: nat) returns (path: seq<string>)
    requires CanContainRun(rules, parent, child, fuel) == Some(Ok(true))
    ensures IsPath(rules, path) && path[0] == parent && path[|path| - 1] == child
    decreases fuel, 0, 0
  {
    var cs := rules[parent];
    if i :| 0 <= i < |cs| && cs[i].bagType == child {
      path := [parent, child];
    } else {
      var i, rest := AnyHasPath(rules, cs, child, fuel - 1);
      path := [parent] + rest;
      forall k | 0 <= k < |path| - 1 ensures path[k] in rules && path[k + 1] in ChildTypes(rules[path[k]]) {
        if k > 0 {
          assert path[k] == rest[k - 1] && path[k + 1] == rest[k];
        }
      }
    }
  }

  lemma {:induction false} AnyHasPath(rules: Rules, cs: seq<Child>, child: string, fuel: nat) returns (i: nat, path: seq<string>)
    requires AnyCanContain(rules, cs, child, fuel) == Some(Ok(true))
    ensures i < |cs| && IsPath(rules, path) && path[0] == cs[i].bagType && path[|path| - 1] == child
    decreases fuel, 1, |cs|
  {
    if CanContainRun(rules, cs[0].bagType, child, fuel) == Some(Ok(true)) {
      i := 0;
      path := CanContainHasPath(rules, cs[0].bagType, child, fuel);
    } else {
      var j;
      j, path := AnyHasPath(rules, cs[1..], child, fuel);
      i := j + 1;
    }
  }

  /** Conversely, along a chain of child edges an answer from `can_contain` can only be True. */
  lemma {:induction false} PathCanContain(rules: Rules, path: seq<string>, fuel: nat)
    requires IsPath(rules, path)
    requires CanContainRun(rules, path[0], path[|path| - 1], fuel).Some?
    requires CanContainRun(rules, path[0], path[|path| - 1], fuel).value.Ok?
    ensures CanContainRun(rules, path[0], path[|path| - 1], fuel) == Some(Ok(true))
    decreases fuel, 0, 0
  {
    var cs := rules[path[0]];
    var child := path[|path| - 1];
    assert path[1] in ChildTypes(cs);
    if !exists i :: 0 <= i < |cs| && cs[i].bagType == child {
      assert |path| > 2;
      var rest := path[1..];
      assert IsPath(rules, rest) by {
        forall k | 0 <= k < |rest| - 1 ensures rest[k] in rules && rest[k + 1] in ChildTypes(rules[rest[k]]) {
          assert rest[k] == path[k + 1] && rest[k + 1] == path[k + 2];
        }
      }
      AnyPathTrue(rules, cs, rest, fuel - 1);
    }
  }

  lemma {:induction false} AnyPathTrue(rules: Rules, cs: seq<Child>, path: seq<string>, fuel: nat)
    requires IsPath(rules, path) && path[0] in ChildTypes(cs)
    requires AnyCanContain(rules, cs, path[|path| - 1], fuel).Some?
    requires AnyCanContain(rules, cs, path[|path| - 1], fuel).value.Ok?
    ensures AnyCanContain(rules, cs, path[|path| - 1], fuel) == Some(Ok(true))
    decreases fuel, 1, |cs|
  {
    var child := path[|path| - 1];
    if CanContainRun(rules, cs[0].bagType, child, fuel) == Some(Ok(false)) {
      if cs[0].bagType == path[0] {
        PathCanContain(rules, path, fuel);
        assert false;
      }
      var i :| 0 <= i < |cs| && cs[i].bagType == path[0];
      assert cs[1..][i - 1] == cs[i];
      AnyPathTrue(rules, cs[1..], path, fuel);
    }
  }

  /**
   * `contained_bags(rules, bag)` with at most `fuel` nested calls: KeyError for a bag without a rule,
   * otherwise the sum over its children of count·(1 + contained_bags(child)), every child asked in order.
   * `None` means the calls go deeper than `fuel`; on a cycle they do so for every fuel (a RecursionError).
   */
  function ContainedBagsRun(rules: Rules, bag: string, fuel: nat): Option<Result<nat>>
    decreases fuel, 0, 0
  {
    if fuel == 0 then None
    else if bag !in rules then Some(Err("KeyError"))
    else SumRun(rules, rules[bag], fuel - 1)
  }

  function SumRun(rules: Rules, cs: seq<Child>, fuel: nat): Option<Result<nat>>
    decreases fuel, 1, |cs|
  {
    if cs == [] then Some(Ok(0))
    else match ContainedBagsRun(rules, cs[0].bagType, fuel)
      case None => None
      case Some(Err(e)) => Some(Err(e))
      case Some(Ok(n)) =>
        match SumRun(rules, cs[1..], fuel)
        case None => None
        case Some(Err(e)) => Some(Err(e))
        case Some(Ok(m)) => Some(Ok(cs[0].count + cs[0].count * n + m))
  }

  /** An answer, once reached, is the answer for every larger fuel. */
  lemma {:induction false} ContainedBagsMoreFuel(rules: Rules, bag: string, f: nat, g: nat)
    requires f <= g && ContainedBagsRun(rules, bag, f).Some?
    ensures ContainedBagsRun(rules, bag, g) == ContainedBagsRun(rules, bag, f)
    decreases f, 0, 0
  {
    if bag in rules {
      SumMoreFuel(rules, rules[bag], f - 1, g - 1);
    }
  }

  lemma {:induction false} SumMoreFuel(rules: Rules, cs: seq<Child>, f: nat, g: nat)
    requires f <= g && SumRun(rules, cs, f).Some?
    ensures SumRun(rules, cs, g) == SumRun(rules, cs, f)
    decreases f, 1, |cs|
  {
    if cs != [] {
      ContainedBagsMoreFuel(rules, cs[0].bagType, f, g);
      if ContainedBagsRun(rules, cs[0].bagType, f).value.Ok? {
        SumMoreFuel(rules, cs[1..], f, g);
      }
    }
  }

  /** A bag with no children holds 0 bags and contains none, whatever the other rules say. */
  lemma EmptyBag(rules: Rules, bag: string, child: string, fuel: nat)
    requires bag in rules && rules[bag] == [] && fuel > 0
    ensures CanContainRun(rules, bag, child, fuel) == Some(Ok(false))
    ensures ContainedBagsRun(rules, bag, fuel) == Some(Ok(0))
  {
  }

  // ---------------------------------------------------------------- containment on ranked bags

  /**
   * `rank` covers a part of the rules closed under children: every ranked bag has a rule, and its children
   * are ranked strictly lower. From a ranked bag no cycle and no bag without a rule can be reached, so the
   * script's recursion ends there; cycles and missing rules elsewhere in `rules` are allowed.
   */
  predicate Valid(rules: Rules, rank: map<string, nat>) {
    forall p :: p in rank ==> p in rules && forall i :: 0 <= i < |rules[p]| ==>
      rules[p][i].bagType in rank && rank[rules[p][i].bagType] < rank[p]
  }

  /** The reference for `can_contain` on a ranked bag: a direct child of that type, or a child that can contain it. */
  predicate CanContain(rules: Rules, rank: map<string, nat>, parent: string, child: string)
    requires Valid(rules, rank) && parent in rank
    decreases rank[parent]
  {
    (exists i :: 0 <= i < |rules[parent]| && rules[parent][i].bagType == child)
    || exists i :: 0 <= i < |rules[parent]| && CanContain(rules, rank, rules[parent][i].bagType, child)
  }

  /** On a ranked bag the script answers once `fuel` exceeds the rank, and its answer is the reference's. */
  lemma {:induction false} CanContainRunRanked(rules: Rules, rank: map<string, nat>, parent: string, child: string, fuel: nat)
    requires Valid(rules, rank) && parent in rank && fuel > rank[parent]
    ensures CanContainRun(rules, parent, child, fuel) == Some(Ok(CanContain(rules, rank, parent, child)))
    decreases fuel, 0, 0
  {
    AnyCanContainRanked(rules, rank, rules[parent], child, fuel - 1);
  }

  lemma {:induction false} AnyCanContainRanked(rules: Rules, rank: map<string, nat>, cs: seq<Child>, child: string, fuel: nat)
    requires Valid(rules, rank)
    requires forall i :: 0 <= i < |cs| ==> cs[i].bagType in rank && rank[cs[i].bagType] < fuel
    ensures AnyCanContain(rules, cs, child, fuel)
      == Some(Ok(exists i :: 0 <= i < |cs| && CanContain(rules, rank, cs[i].bagType, child)))
    decreases fuel, 1, |cs|
  {
    if cs != [] {
      CanContainRunRanked(rules, rank, cs[0].bagType, child, fuel);
      AnyCanContainRanked(rules, rank, cs[1..], child, fuel);
      assert forall j :: 0 <= j < |cs[1..]| ==> cs[1..][j] == cs[j + 1];
    }
  }

  /** The reference for `contained_bags` on a ranked bag. */
  function ContainedBags(rules: Rules, rank: map<string, nat>, bag: string): nat
    requires Valid(rules, rank) && bag in rank
    decreases rank[bag], 1, 0
  {
    ChildrenSum(rules, rank, rules[bag], rank[bag])
  }

  function ChildrenSum(rules: Rules, rank: map<string, nat>, cs: seq<Child>, bound: nat): nat
    requires Valid(rules, rank)
    requires forall i :: 0 <= i < |cs| ==> cs[i].bagType in rank && rank[cs[i].bagType] < bound
    decreases bound, 0, |cs|
  {
    if cs == [] then 0
    else cs[0].count + cs[0].count * ContainedBags(rules, rank, cs[0].bagType) + ChildrenSum(rules, rank, cs[1..], bound)
  }

  /** On a ranked bag the script answers once `fuel` exceeds the rank, and its answer is the reference's. */
  lemma {:induction false} ContainedBagsRunRanked(rules: Rules, rank: map<string, nat>, bag: string, fuel: nat)
    requires Valid(rules, rank) && bag in rank && fuel > rank[bag]
    ensures ContainedBagsRun(rules, bag, fuel) == Some(Ok(ContainedBags(rules, rank, bag)))
    decreases fuel, 0, 0
  {
    SumRunRanked(rules, rank, rules[bag], rank[bag], fuel - 1);
  }

  lemma {:induction false} SumRunRanked(rules: Rules, rank: map<string, nat>, cs: seq<Child>, bound: nat, fuel: nat)
    requires Valid(rules, rank) && bound <= fuel
    requires forall i :: 0 <= i < |cs| ==> cs[i].bagType in rank && rank[cs[i].bagType] < bound
    ensures SumRun(rules, cs, fuel) == Some(Ok(ChildrenSum(rules, rank, cs, bound)))
    decreases fuel, 1, |cs|
  {
    if cs != [] {
      ContainedBagsRunRanked(rules, rank, cs[0].bagType, fuel);
      SumRunRanked(rules, rank, cs[1..], bound, fuel);
    }
  }

  function Repeat(n: nat, s: seq<string>): (r: seq<string>)
    ensures |r| == n * |s|
  {
    if n == 0 then [] else s + Repeat(n - 1, s)
  }

  /** The reference: every bag inside `bag`, one entry per physical bag, nested ones included. */
  function Contents(rules: Rules, rank: map<string, nat>, bag: string): seq<string>
    requires Valid(rules, rank) && bag in rank
    decreases rank[bag], 1, 0
  {
    ChildrenContents(rules, rank, rules[bag], rank[bag])
  }

  function ChildrenContents(rules: Rules, rank: map<string, nat>, cs: seq<Child>, bound: nat): seq<string>
    requires Valid(rules, rank)
    requires forall i :: 0 <= i < |cs| ==> cs[i].bagType in rank && rank[cs[i].bagType] < bound
    decreases bound, 0, |cs|
  {
    if cs == [] then []
    else Repeat(cs[0].count, [cs[0].bagType] + Contents(rules, rank, cs[0].bagType))
         + ChildrenContents(rules, rank, cs[1..], bound)
  }

  /** `contained_bags` counts exactly the bags inside, nested ones included. */
  lemma {:induction false} ContainedBagsCountsContents(rules: Rules, rank: map<string, nat>, bag: string)
    requires Valid(rules, rank) && bag in rank
    ensures ContainedBags(rules, rank, bag) == |Contents(rules, rank, bag)|
    decreases rank[bag], 1, 0
  {
    ChildrenSumCountsContents(rules, rank, rules[bag], rank[bag]);
  }

  lemma {:induction false} ChildrenSumCountsContents(rules: Rules, rank: map<string, nat>, cs: seq<Child>, bound: nat)
    requires Valid(rules, rank)
    requires forall i :: 0 <= i < |cs| ==> cs[i].bagType in rank && rank[cs[i].bagType] < bound
    ensures ChildrenSum(rules, rank, cs, bound) == |ChildrenContents(rules, rank, cs, bound)|
    decreases bound, 0, |cs|
  {
    if cs != [] {
      ContainedBagsCountsContents(rules, rank, cs[0].bagType);
      ChildrenSumCountsContents(rules, rank, cs[1..], bound);
      var n := cs[0].count;
      assert n * (1 + |Contents(rules, rank, cs[0].bagType)|) == n + n * |Contents(rules, rank, cs[0].bagType)|;
    }
  }

  /** A bag can contain `child` through its `i`-th child when that child is `child` or can contain it. */
  lemma ContainVia(rules: Rules, rank: map<string, nat>, parent: string, i: nat, child: string)
    requires Valid(rules, rank) && parent in rank && i < |rules[parent]|
    requires rules[parent][i].bagType == child || CanContain(rules, rank, rules[parent][i].bagType, child)
    ensures CanContain(rules, rank, parent, child)
  {
  }

  /** A bag cannot contain `child` when none of its children is `child` or can contain it. */
  lemma ContainNone(rules: Rules, rank: map<string, nat>, parent: string, child: string)
    requires Valid(rules, rank) && parent in rank
    requires forall i :: 0 <= i < |rules[parent]| ==> rules[parent][i].bagType != child
    requires forall i :: 0 <= i < |rules[parent]| ==> !CanContain(rules, rank, rules[parent][i].bagType, child)
    ensures !CanContain(rules, rank, parent, child)
  {
  }

  /** A bag with two children, neither of them `child` nor able to hold it, cannot hold `child`. */
  lemma TwoChildrenNone(rules: Rules, rank: map<string, nat>, parent: string, a: Child, b: Child, child: string)
    requires Valid(rules, rank) && parent in rank && rules[parent] == [a, b]
    requires a.bagType in rank && b.bagType in rank
    requires a.bagType != child && b.bagType != child
    requires !CanContain(rules, rank, a.bagType, child) && !CanContain(rules, rank, b.bagType, child)
    ensures !CanContain(rules, rank, parent, child)
  {
    ContainNone(rules, rank, parent, child);
  }

  /** On a ranked bag without children the reference holds nothing and contains nothing. */
  lemma RankedEmptyBag(rules: Rules, rank: map<string, nat>, bag: string, child: string)
    requires Valid(rules, rank) && bag in rank && rules[bag] == []
    ensures ContainedBags(rules, rank, bag) == 0 && !CanContain(rules, rank, bag, child)
  {
  }

  /** A bag whose two children hold nothing holds just its children. */
  lemma LeafChildren(rules: Rules, rank: map<string, nat>, bag: string)
    requires Valid(rules, rank) && bag in rank && |rules[bag]| == 2
    requires forall i :: 0 <= i < 2 ==> rules[rules[bag][i].bagType] == []
    ensures ContainedBags(rules, rank, bag) == rules[bag][0].count + rules[bag][1].count
  {
    var cs := rules[bag];
    assert cs[1..][1..] == [];
    RankedEmptyBag(rules, rank, cs[0].bagType, "");
    RankedEmptyBag(rules, rank, cs[1].bagType, "");
    assert ChildrenSum(rules, rank, cs[1..], rank[bag]) == cs[1].count;
  }

  // ---------------------------------------------------------------- rules with cycles

  /** Bag A reaches C through B, and B also leads back to A. */
  function LoopThroughRules(): Rules {
    map["A" := [Child("B", 1)], "B" := [Child("A", 1), Child("C", 1)], "C" := []]
  }

  /** `can_contain` answers True for A and C: B holds C directly, so the loop back to A is never entered. */
  lemma LoopThroughShortCircuit()
    ensures CanContainRun(LoopThroughRules(), "A", "C", 2) == Some(Ok(true))
  {
    var r: Rules := LoopThroughRules();
    assert r["A"][0].bagType == "B" && r["B"][1].bagType == "C";
    assert CanContainRun(r, "B", "C", 1) == Some(Ok(true));
  }

  /** A childless bag A beside a cycle between X and Y. */
  function CycleBesideRules(): Rules {
    map["A" := [], "X" := [Child("Y", 1)], "Y" := [Child("X", 1)]]
  }

  /** A answers normally, and is ranked by itself: the cycle between X and Y is never reached. */
  lemma CycleBesideA(child: string, fuel: nat)
    requires fuel > 0
    ensures CanContainRun(CycleBesideRules(), "A", child, fuel) == Some(Ok(false))
    ensures ContainedBagsRun(CycleBesideRules(), "A", fuel) == Some(Ok(0))
    ensures Valid(CycleBesideRules(), map["A" := 0]) && ContainedBags(CycleBesideRules(), map["A" := 0], "A") == 0
  {
    var r: Rules := CycleBesideRules();
    assert "A" in r && r["A"] == [];
    EmptyBag(r, "A", child, fuel);
  }

  /** From X the script never answers: whatever the fuel, the calls go round the cycle until it runs out. */
  lemma {:induction false} CycleBesideX(child: string, fuel: nat)
    requires child != "X" && child != "Y"
    ensures CanContainRun(CycleBesideRules(), "X", child, fuel) == None
    ensures CanContainRun(CycleBesideRules(), "Y", child, fuel) == None
    ensures ContainedBagsRun(CycleBesideRules(), "X", fuel) == None
    ensures ContainedBagsRun(CycleBesideRules(), "Y", fuel) == None
  {
    var r: Rules := CycleBesideRules();
    if fuel > 0 {
      CycleBesideX(child, fuel - 1);
      assert r["X"] == [Child("Y", 1)] && r["Y"] == [Child("X", 1)];
    }
  }

  // ---------------------------------------------------------------- the sample of 07/07.py:41-51

  function SampleRules(): Rules {
    map[
      "light red" := [Child("bright white", 1), Child("muted yellow", 2)],
      "dark orange" := [Child("bright white", 3), Child("muted yellow", 4)],
      "bright white" := [Child("shiny gold", 1)],
      "muted yellow" := [Child("shiny gold", 2), Child("faded blue", 9)],
      "shiny gold" := [Child("dark olive", 1), Child("vibrant plum", 2)],
      "dark olive" := [Child("faded blue", 3), Child("dotted black", 4)],
      "vibrant plum" := [Child("faded blue", 5), Child("dotted black", 6)],
      "faded blue" := [],
      "dotted black" := []
    ]
  }

  function SampleRank(): map<string, nat> {
    map["faded blue" := 0, "dotted black" := 0, "dark olive" := 1, "vibrant plum" := 1, "shiny gold" := 2,
        "bright white" := 3, "muted yellow" := 3, "light red" := 4, "dark orange" := 4]
  }

  /** The nine bag colours of the sample. */
  predicate SampleName(b: string) {
    b in {"light red", "dark orange", "bright white", "muted yellow", "shiny gold",
          "dark olive", "vibrant plum", "faded blue", "dotted black"}
  }

  /** The sample's rules entry by entry. */
  predicate SampleEntries(r: Rules) {
    && (forall b :: b in r ==> SampleName(b))
    && "light red" in r && r["light red"] == [Child("bright white", 1), Child("muted yellow", 2)]
    && "dark orange" in r && r["dark orange"] == [Child("bright white", 3), Child("muted yellow", 4)]
    && "bright white" in r && r["bright white"] == [Child("shiny gold", 1)]
    && "muted yellow" in r && r["muted yellow"] == [Child("shiny gold", 2), Child("faded blue", 9)]
    && "shiny gold" in r && r["shiny gold"] == [Child("dark olive", 1), Child("vibrant plum", 2)]
    && "dark olive" in r && r["dark olive"] == [Child("faded blue", 3), Child("dotted black", 4)]
    && "vibrant plum" in r && r["vibrant plum"] == [Child("faded blue", 5), Child("dotted black", 6)]
    && "faded blue" in r && r["faded blue"] == []
    && "dotted black" in r && r["dotted black"] == []
  }

  /** The sample's ranking entry by entry. */
  predicate SampleRanks(k: map<string, nat>) {
    && (forall b :: b in k ==> SampleName(b))
    && "faded blue" in k && k["faded blue"] == 0 && "dotted black" in k && k["dotted black"] == 0
    && "dark olive" in k && k["dark olive"] == 1 && "vibrant plum" in k && k["vibrant plum"] == 1
    && "shiny gold" in k && k["shiny gold"] == 2
    && "bright white" in k && k["bright white"] == 3 && "muted yellow" in k && k["muted yellow"] == 3
    && "light red" in k && k["light red"] == 4 && "dark orange" in k && k["dark orange"] == 4
  }

  lemma SampleRulesEntries()
    ensures SampleEntries(SampleRules())
  {
  }

  lemma SampleRankEntries()
    ensures SampleRanks(SampleRank())
  {
  }

  /** Entry by entry, the sample rules mention only their own bag types, ranked downwards. */
  lemma EntriesValid(r: Rules, k: map<string, nat>)
    requires SampleEntries(r) && SampleRanks(k)
    ensures Valid(r, k)
  {
    forall p | p in k ensures p in r && forall i :: 0 <= i < |r[p]| ==>
      r[p][i].bagType in k && k[r[p][i].bagType] < k[p]
    {
      assert SampleName(p);
    }
  }

  lemma SampleValid()
    ensures Valid(SampleRules(), SampleRank())
  {
    SampleRulesEntries();
    SampleRankEntries();
    EntriesValid(SampleRules(), SampleRank());
  }

  /** The four sample bags that can hold shiny gold, directly or through bright white. */
  lemma EntriesContainers(r: Rules, k: map<string, nat>)
    requires SampleEntries(r) && SampleRanks(k)
    ensures Valid(r, k)
    ensures CanContain(r, k, "bright white", "shiny gold") && CanContain(r, k, "muted yellow", "shiny gold")
    ensures CanContain(r, k, "dark orange", "shiny gold") && CanContain(r, k, "light red", "shiny gold")
  {
    EntriesValid(r, k);
    var g := "shiny gold";
    ContainVia(r, k, "bright white", 0, g);
    ContainVia(r, k, "muted yellow", 0, g);
    ContainVia(r, k, "dark orange", 0, g);
    ContainVia(r, k, "light red", 0, g);
  }

  /** The other five sample bags cannot hold shiny gold; shiny gold does not hold itself. */
  lemma EntriesNonContainers(r: Rules, k: map<string, nat>)
    requires SampleEntries(r) && SampleRanks(k)
    ensures Valid(r, k)
    ensures !CanContain(r, k, "faded blue", "shiny gold") && !CanContain(r, k, "dotted black", "shiny gold")
    ensures !CanContain(r, k, "dark olive", "shiny gold") && !CanContain(r, k, "vibrant plum", "shiny gold")
    ensures !CanContain(r, k, "shiny gold", "shiny gold")
  {
    EntriesValid(r, k);
    RankedEmptyBag(r, k, "faded blue", "shiny gold");
    RankedEmptyBag(r, k, "dotted black", "shiny gold");
    TwoChildrenNone(r, k, "dark olive", Child("faded blue", 3), Child("dotted black", 4), "shiny gold");
    TwoChildrenNone(r, k, "vibrant plum", Child("faded blue", 5), Child("dotted black", 6), "shiny gold");
    TwoChildrenNone(r, k, "shiny gold", Child("dark olive", 1), Child("vibrant plum", 2), "shiny gold");
  }

  /** Exactly bright white, muted yellow, dark orange and light red can contain shiny gold (07/07.py:58-61). */
  lemma SampleCanContain(r: Rules, k: map<string, nat>)
    requires r == SampleRules() && k == SampleRank()
    ensures Valid(r, k)
    ensures forall b :: b in r ==> (CanContain(r, k, b, "shiny gold") <==> b in {"bright white", "muted yellow", "dark orange", "light red"})
  {
    SampleRulesEntries();
    SampleRankEntries();
    EntriesCanContain(r, k);
  }

  lemma EntriesCanContain(r: Rules, k: map<string, nat>)
    requires SampleEntries(r) && SampleRanks(k)
    ensures Valid(r, k)
    ensures forall b :: b in r ==> (CanContain(r, k, b, "shiny gold") <==> b in {"bright white", "muted yellow", "dark orange", "light red"})
  {
    EntriesContainers(r, k);
    EntriesNonContainers(r, k);
    forall b | b in r ensures CanContain(r, k, b, "shiny gold") <==> b in {"bright white", "muted yellow", "dark orange", "light red"} {
      assert SampleName(b);
    }
  }

  /** vibrant plum holds 11 bags and dark olive 7; faded blue and dotted black hold none. */
  lemma EntriesContainedBags(r: Rules, k: map<string, nat>)
    requires SampleEntries(r) && SampleRanks(k)
    ensures Valid(r, k)
    ensures ContainedBags(r, k, "faded blue") == 0 && ContainedBags(r, k, "dotted black") == 0
    ensures ContainedBags(r, k, "vibrant plum") == 11 && ContainedBags(r, k, "dark olive") == 7
  {
    EntriesValid(r, k);
    RankedEmptyBag(r, k, "faded blue", "");
    RankedEmptyBag(r, k, "dotted black", "");
    LeafChildren(r, k, "vibrant plum");
    LeafChildren(r, k, "dark olive");
  }

  /** vibrant plum holds 11 bags and dark olive 7 (07/07.py:63-67); faded blue and dotted black hold none. */
  lemma SampleContainedBags(r: Rules, k: map<string, nat>)
    requires r == SampleRules() && k == SampleRank()
    ensures Valid(r, k)
    ensures ContainedBags(r, k, "faded blue") == 0 && ContainedBags(r, k, "dotted black") == 0
    ensures ContainedBags(r, k, "vibrant plum") == 11 && ContainedBags(r, k, "dark olive") == 7
  {
    SampleRulesEntries();
    SampleRankEntries();
    EntriesContainedBags(r, k);
  }

  /** The script itself answers the sample's `test_can_contain`: with 5 nested calls every bag type gets its answer. */
  lemma SampleCanContainRun(r: Rules)
    requires r == SampleRules()
    ensures forall b :: b in r ==>
      CanContainRun(r, b, "shiny gold", 5) == Some(Ok(b in {"bright white", "muted yellow", "dark orange", "light red"}))
  {
    var k := SampleRank();
    SampleCanContain(r, k);
    SampleRankEntries();
    forall b | b in r
      ensures CanContainRun(r, b, "shiny gold", 5) == Some(Ok(b in {"bright white", "muted yellow", "dark orange", "light red"}))
    {
      assert b in k && k[b] <= 4 by { SampleNameRanked(k, b); }
      CanContainRunRanked(r, k, b, "shiny gold", 5);
    }
  }

  /** Every sample bag type is ranked at most 4. */
  lemma SampleNameRanked(k: map<string, nat>, b: string)
    requires SampleRanks(k) && SampleName(b)
    ensures b in k && k[b] <= 4
  {
  }

  /** The script itself answers the sample's `test_contained_bags` with 0, 0, 11 and 7. */
  lemma SampleContainedBagsRun(r: Rules)
    requires r == SampleRules()
    ensures ContainedBagsRun(r, "faded blue", 5) == Some(Ok(0)) && ContainedBagsRun(r, "dotted black", 5) == Some(Ok(0))
    ensures ContainedBagsRun(r, "vibrant plum", 5) == Some(Ok(11)) && ContainedBagsRun(r, "dark olive", 5) == Some(Ok(7))
  {
    var k := SampleRank();
    SampleContainedBags(r, k);
    SampleRankEntries();
    ContainedBagsRunRanked(r, k, "faded blue", 5);
    ContainedBagsRunRanked(r, k, "dotted black", 5);
    ContainedBagsRunRanked(r, k, "vibrant plum", 5);
    ContainedBagsRunRanked(r, k, "dark olive", 5);
  }
}
