/**
 * Day 21 (21/21.py): allergen assessment. Each food lists its ingredients and
 * some of the allergens it contains; each allergen is in exactly one
 * ingredient, found by intersecting the foods that list it and then
 * eliminating ingredients already claimed by another allergen.
 */
module Allergens {
  import opened Base
  import Py

  /** `Food(ingredients, allergens)`. */
  datatype Food = Food(ingredients: set<string>, allergens: set<string>)

  // ---------------------------------------------------------------- parse_line

  /** The characters of the pattern's class `[a-z` followed by `extra`. */
  predicate CharsIn(s: string, extra: set<char>) {
    forall i :: 0 <= i < |s| ==> 'a' <= s[i] <= 'z' || s[i] in extra
  }

  /** The text between the ingredient list and the allergen list. */
  const Contains: string := " (contains "

  function SetOf(xs: seq<string>): (r: set<string>)
    ensures forall x :: x in r <==> x in xs
  {
    set x | x in xs
  }

  /**
   * `re.fullmatch(r'([a-z ]+) \(contains ([a-z, ]+)\)\n', line)`, then the
   * words of the first group and the `, `-separated parts of the second; a
   * line that does not match leaves `match` as None, and `match.group`
   * raises AttributeError. A match must put `Contains` at its first
   * occurrence, since the first group has no `(`.
   */
  function ParseLine(line: string): Result<Food> {
    match Py.Find(line, Contains)
    case None => Err("AttributeError")
    case Some(i) =>
      var words := line[..i];
      var rest := line[i + |Contains|..];
      if words != [] && CharsIn(words, {' '}) && |rest| >= 3 && rest[|rest| - 2..] == ")\n" then
        var list := rest[..|rest| - 2];
        if CharsIn(list, {',', ' '}) then Ok(Food(SetOf(Py.SplitWhitespace(words)), SetOf(Py.Split(list, ", "))))
        else Err("AttributeError")
      else Err("AttributeError")
  }

  /** Text without `(` has its first `Contains` right after it. */
  lemma FindContains(words: string, rest: string)
    requires words != [] && '(' !in words
    ensures Py.Find(words + Contains + rest, Contains) == Some(|words|)
  {
    var s := words + Contains + rest;
    forall j | 0 <= j < |words| ensures !Py.OccursAt(s, Contains, j) {
      assert s[j + 1] != Contains[1];
    }
    assert s[|words|..|words| + |Contains|] == Contains;
    assert Py.OccursAt(s, Contains, |words|);
  }

  /** A line that fits the pattern parses to its groups' words and parts. */
  lemma ParseLineMatch(words: string, list: string)
    requires words != [] && CharsIn(words, {' '}) && list != [] && CharsIn(list, {',', ' '})
    ensures ParseLine(words + Contains + list + ")\n") ==
      Ok(Food(SetOf(Py.SplitWhitespace(words)), SetOf(Py.Split(list, ", "))))
  {
    var tail := list + ")\n";
    assert words + Contains + list + ")\n" == words + Contains + tail;
    assert '(' !in words by {
      assert forall i :: 0 <= i < |words| ==> words[i] != '(';
    }
    FindContains(words, tail);
    var s := words + Contains + tail;
    assert s[..|words|] == words && s[|words| + |Contains|..] == tail;
    assert tail[|tail| - 2..] == ")\n" && tail[..|tail| - 2] == list;
  }

  /** A line parses exactly when it fits the pattern. */
  lemma ParseLineFits(line: string)
    ensures ParseLine(line).Ok? <==> exists words, list ::
      words != [] && CharsIn(words, {' '}) && list != [] && CharsIn(list, {',', ' '}) && line == words + Contains + list + ")\n"
    ensures ParseLine(line).Err? ==> ParseLine(line).msg == "AttributeError"
  {
    if ParseLine(line).Ok? {
      var i := Py.Find(line, Contains).value;
      var rest := line[i + |Contains|..];
      var words, list := line[..i], rest[..|rest| - 2];
      assert line[i..i + |Contains|] == Contains;
      assert rest == list + ")\n";
      assert line == words + Contains + list + ")\n";
    }
    if exists words, list :: words != [] && CharsIn(words, {' '}) && list != [] && CharsIn(list, {',', ' '}) && line == words + Contains + list + ")\n" {
      var words, list :| words != [] && CharsIn(words, {' '}) && list != [] && CharsIn(list, {',', ' '}) && line == words + Contains + list + ")\n";
      ParseLineMatch(words, list);
    }
  }

  /** A lower-case word. */
  predicate Word(w: string) {
    w != [] && CharsIn(w, {})
  }

  predicate Words(ws: seq<string>) {
    ws != [] && forall i :: 0 <= i < |ws| ==> Word(ws[i])
  }

  /** A food as the puzzle input writes it. */
  function FoodLine(ingredients: seq<string>, allergens: seq<string>): string {
    Py.Join(ingredients, " ") + Contains + Py.Join(allergens, ", ") + ")\n"
  }

  lemma {:induction false} JoinCharsIn(ws: seq<string>, sep: string, extra: set<char>)
    requires Words(ws) && CharsIn(sep, extra)
    ensures Py.Join(ws, sep) != [] && CharsIn(Py.Join(ws, sep), extra) && Py.Join(ws, sep)[0] == ws[0][0]
  {
    if |ws| > 1 {
      JoinCharsIn(ws[1..], sep, extra);
      var j := Py.Join(ws[1..], sep);
      assert Py.Join(ws, sep) == ws[0] + sep + j;
      forall i | 0 <= i < |ws[0] + sep + j| ensures 'a' <= (ws[0] + sep + j)[i] <= 'z' || (ws[0] + sep + j)[i] in extra {
        if i >= |ws[0]| + |sep| {
          assert (ws[0] + sep + j)[i] == j[i - |ws[0]| - |sep|];
        } else if i >= |ws[0]| {
          assert (ws[0] + sep + j)[i] == sep[i - |ws[0]|];
        }
      }
    }
  }

  /** `' '.join(ws).split()` gives back lower-case words. */
  lemma {:induction false} SplitWhitespaceJoin(ws: seq<string>)
    requires Words(ws)
    ensures Py.SplitWhitespace(Py.Join(ws, " ")) == ws
  {
    assert Py.NoSpace(ws[0]) by {
      assert forall j :: 0 <= j < |ws[0]| ==> 'a' <= ws[0][j] <= 'z';
    }
    if |ws| == 1 {
      Py.SplitWhitespaceOne(ws[0]);
    } else {
      var j := Py.Join(ws[1..], " ");
      JoinCharsIn(ws[1..], " ", {' '});
      assert Py.Join(ws, " ") == ws[0] + (" " + j);
      Py.SplitWhitespaceWord(ws[0], " " + j);
      Py.SplitWhitespaceAfterSpace(j);
      SplitWhitespaceJoin(ws[1..]);
      HeadTail(ws);
    }
  }

  /** `', '.join(ws).split(', ')` gives back lower-case words. */
  lemma {:induction false} SplitJoinComma(ws: seq<string>)
    requires Words(ws)
    ensures Py.Split(Py.Join(ws, ", "), ", ") == ws
  {
    var w := ws[0];
    if |ws| == 1 {
      forall j | 0 <= j ensures !Py.OccursAt(w, ", ", j) {
        if j < |w| {
          Py.NotOccursAt(w, ", ", j);
        }
      }
    } else {
      var j := Py.Join(ws[1..], ", ");
      forall k | 0 <= k < |w| ensures !Py.OccursAt(w + ", " + j, ", ", k) {
        assert (w + ", " + j)[k] == w[k];
        Py.NotOccursAt(w + ", " + j, ", ", k);
      }
      Py.SplitAtFirstSep(w, ", ", j);
      SplitJoinComma(ws[1..]);
      HeadTail(ws);
    }
  }

  /** `parse_line` reads back a food written in the puzzle's format. */
  lemma ParseFoodLine(ingredients: seq<string>, allergens: seq<string>)
    requires Words(ingredients) && Words(allergens)
    ensures ParseLine(FoodLine(ingredients, allergens)) == Ok(Food(SetOf(ingredients), SetOf(allergens)))
  {
    JoinCharsIn(ingredients, " ", {' '});
    JoinCharsIn(allergens, ", ", {',', ' '});
    ParseLineMatch(Py.Join(ingredients, " "), Py.Join(allergens, ", "));
    SplitWhitespaceJoin(ingredients);
    SplitJoinComma(allergens);
  }

  /** `parse_input`: every line a food, or the first failure. */
  function ParseInput(lines: seq<string>): (r: Result<seq<Food>>)
    ensures r.Ok? <==> forall i :: 0 <= i < |lines| ==> ParseLine(lines[i]).Ok?
  {
    MapResult(ParseLine, lines)
  }

  // ---------------------------------------------------------------- find_possible_ingredients

  /** `set().union(*(food.allergens for food in foods))`. */
  function AllAllergens(foods: seq<Food>): (r: set<string>)
    ensures forall a :: a in r <==> exists i :: 0 <= i < |foods| && a in foods[i].allergens
  {
    if foods == [] then {}
    else
      var rest := AllAllergens(foods[1..]);
      assert forall i :: 1 <= i < |foods| ==> foods[i] == foods[1..][i - 1];
      foods[0].allergens + rest
  }

  /** `set().union(*(food.ingredients for food in foods))`. */
  function AllIngredients(foods: seq<Food>): (r: set<string>)
    ensures forall x :: x in r <==> exists i :: 0 <= i < |foods| && x in foods[i].ingredients
  {
    if foods == [] then {}
    else
      var rest := AllIngredients(foods[1..]);
      assert forall i :: 1 <= i < |foods| ==> foods[i] == foods[1..][i - 1];
      foods[0].ingredients + rest
  }

  /** Food `i` lists `allergen`. */
  predicate Lists(foods: seq<Food>, allergen: string, i: int) {
    0 <= i < |foods| && allergen in foods[i].allergens
  }

  /** The ingredients in every food from `i` on that lists `allergen`, when one does. */
  function CommonFrom(foods: seq<Food>, allergen: string, i: nat): Option<set<string>>
    requires i <= |foods|
    decreases |foods| - i
  {
    if i == |foods| then None
    else
      var rest := CommonFrom(foods, allergen, i + 1);
      if allergen !in foods[i].allergens then rest
      else if rest.None? then Some(foods[i].ingredients)
      else Some(foods[i].ingredients * rest.value)
  }

  lemma {:induction false} CommonFromMembers(foods: seq<Food>, allergen: string, i: nat)
    requires i <= |foods|
    ensures CommonFrom(foods, allergen, i).None? <==> forall k :: i <= k < |foods| ==> !Lists(foods, allergen, k)
    ensures CommonFrom(foods, allergen, i).Some? ==> forall x :: x in CommonFrom(foods, allergen, i).value <==>
      forall k :: i <= k < |foods| && Lists(foods, allergen, k) ==> x in foods[k].ingredients
    decreases |foods| - i
  {
    if i < |foods| {
      CommonFromMembers(foods, allergen, i + 1);
      assert Lists(foods, allergen, i) <==> allergen in foods[i].allergens;
    }
  }

  /**
   * `find_possible_ingredients`: `set.intersection` of the ingredient sets of
   * the foods listing `allergen`; with no such food it is called without
   * arguments and raises TypeError.
   */
  function PossibleIngredients(foods: seq<Food>, allergen: string): Result<set<string>> {
    match CommonFrom(foods, allergen, 0)
    case None => Err("TypeError")
    case Some(s) => Ok(s)
  }

  /** The candidates are the ingredients that every food listing the allergen has. */
  lemma PossibleIngredientsMembers(foods: seq<Food>, allergen: string)
    ensures PossibleIngredients(foods, allergen).Err? <==> allergen !in AllAllergens(foods)
    ensures PossibleIngredients(foods, allergen).Ok? ==> forall x :: x in PossibleIngredients(foods, allergen).value <==>
      forall k :: Lists(foods, allergen, k) ==> x in foods[k].ingredients
  {
    CommonFromMembers(foods, allergen, 0);
    if allergen in AllAllergens(foods) {
      var k :| 0 <= k < |foods| && allergen in foods[k].allergens;
      assert Lists(foods, allergen, k);
    }
  }

  /** The candidates of an allergen some food lists. */
  function Candidate(foods: seq<Food>, allergen: string): (r: set<string>)
    requires allergen in AllAllergens(foods)
    ensures PossibleIngredients(foods, allergen) == Ok(r)
  {
    PossibleIngredientsMembers(foods, allergen);
    PossibleIngredients(foods, allergen).value
  }

  // ---------------------------------------------------------------- remove_from_other_allergens

  /**
   * `possible_ingredients` is a dict from allergen to a set that the
   * elimination changes in place; it is modelled by its keys, in insertion
   * order, and an array holding each key's set.
   */
  function Removed(keys: seq<string>, sets: seq<set<string>>, ingredient: string, allergen: string): (r: seq<set<string>>)
    requires |keys| == |sets|
    ensures |r| == |sets|
  {
    seq(|sets|, j requires 0 <= j < |sets| => if keys[j] != allergen then sets[j] - {ingredient} else sets[j])
  }

  /** The other allergens lose `ingredient`; `allergen`'s own set and everything else is kept. */
  lemma RemovedShape(keys: seq<string>, sets: seq<set<string>>, ingredient: string, allergen: string)
    requires |keys| == |sets|
    ensures forall j :: 0 <= j < |sets| && keys[j] == allergen ==> Removed(keys, sets, ingredient, allergen)[j] == sets[j]
    ensures forall j, x :: 0 <= j < |sets| && keys[j] != allergen ==> (x in Removed(keys, sets, ingredient, allergen)[j] <==> x in sets[j] && x != ingredient)
    ensures Removed(keys, sets, ingredient, allergen) != sets <==> exists j :: 0 <= j < |sets| && keys[j] != allergen && ingredient in sets[j]
  {
    var r := Removed(keys, sets, ingredient, allergen);
    if j :| 0 <= j < |sets| && keys[j] != allergen && ingredient in sets[j] {
      assert ingredient !in r[j];
    } else {
      forall j | 0 <= j < |sets| ensures r[j] == sets[j] {
        if keys[j] != allergen {
          assert ingredient !in sets[j];
        }
      }
    }
  }

  /** `remove_from_other_allergens`: drops `ingredient` from every other allergen's set, and says whether that removed anything. */
  method RemoveFromOtherAllergens(keys: seq<string>, sets: array<set<string>>, ingredient: string, allergen: string) returns (changed: bool)
    requires |keys| == sets.Length
    modifies sets
    ensures sets[..] == Removed(keys, old(sets[..]), ingredient, allergen)
    ensures changed <==> exists j :: 0 <= j < sets.Length && keys[j] != allergen && ingredient in old(sets[j])
  {
    changed := false;
    for j := 0 to sets.Length
      invariant forall k :: 0 <= k < j ==> sets[k] == if keys[k] != allergen then old(sets[k]) - {ingredient} else old(sets[k])
      invariant forall k :: j <= k < sets.Length ==> sets[k] == old(sets[k])
      invariant changed <==> exists k :: 0 <= k < j && keys[k] != allergen && ingredient in old(sets[k])
    {
      if keys[j] != allergen && ingredient in sets[j] {
        sets[j] := sets[j] - {ingredient};
        changed := true;
      }
    }
  }

  // ---------------------------------------------------------------- find_allergens

  /** `keys` lists every element of `s` once: the iteration order of the set, which Python does not fix. */
  ghost predicate Enumerates(keys: seq<string>, s: set<string>) {
    (forall a :: a in s <==> a in keys) && forall j, k :: 0 <= j < k < |keys| ==> keys[j] != keys[k]
  }

  /** Every set of `a` is within the matching set of `b`. */
  predicate Within(a: seq<set<string>>, b: seq<set<string>>) {
    |a| == |b| && forall j :: 0 <= j < |a| ==> a[j] <= b[j]
  }

  function Total(sets: seq<set<string>>): nat {
    if sets == [] then 0 else |sets[0]| + Total(sets[1..])
  }

  lemma SubsetCard(x: set<string>, y: set<string>)
    requires x <= y
    ensures |x| <= |y| && (x != y ==> |x| < |y|)
  {
    assert y == x + (y - x);
    assert |y| == |x| + |y - x|;
  }

  /** Shrinking sets shrink the total, strictly when some set shrinks. */
  lemma {:induction false} TotalWithin(a: seq<set<string>>, b: seq<set<string>>)
    requires Within(a, b)
    ensures Total(a) <= Total(b)
    ensures a != b ==> Total(a) < Total(b)
  {
    if a != [] {
      assert Within(a[1..], b[1..]);
      TotalWithin(a[1..], b[1..]);
      SubsetCard(a[0], b[0]);
      if a[0] == b[0] && a[1..] == b[1..] {
        assert a == [a[0]] + a[1..] && b == [b[0]] + b[1..];
      }
    }
  }

  /** `next(iter(s))` on a one-element set. */
  function Only(s: set<string>): (x: string)
    requires |s| == 1
    ensures x in s && forall y :: y in s ==> y == x
  {
    var x :| x in s;
    forall y | y in s ensures y == x {
      if y != x {
        assert {x, y} <= s;
        SubsetCard({x, y}, s);
      }
    }
    x
  }

  /** One pass of the `for` loop inside `while True`, from entry `i` on; `changed` collects whether it removed anything. */
  function Pass(keys: seq<string>, sets: seq<set<string>>, i: nat, changed: bool): (r: (seq<set<string>>, bool))
    requires |keys| == |sets| && i <= |sets|
    ensures |r.0| == |sets|
    decreases |sets| - i
  {
    if i == |sets| then (sets, changed)
    else if |sets[i]| == 1 then
      var next := Removed(keys, sets, Only(sets[i]), keys[i]);
      RemovedShape(keys, sets, Only(sets[i]), keys[i]);
      Pass(keys, next, i + 1, changed || next != sets)
    else Pass(keys, sets, i + 1, changed)
  }

  /** A pass only shrinks the sets, and reports a change exactly when it made one. */
  lemma {:induction false} PassWithin(keys: seq<string>, sets: seq<set<string>>, i: nat, changed: bool)
    requires |keys| == |sets| && i <= |sets|
    ensures Within(Pass(keys, sets, i, changed).0, sets)
    ensures Pass(keys, sets, i, changed).1 <==> changed || Pass(keys, sets, i, changed).0 != sets
    decreases |sets| - i
  {
    if i < |sets| {
      if |sets[i]| == 1 {
        var next := Removed(keys, sets, Only(sets[i]), keys[i]);
        RemovedShape(keys, sets, Only(sets[i]), keys[i]);
        PassWithin(keys, next, i + 1, changed || next != sets);
        if Pass(keys, next, i + 1, changed || next != sets).0 == sets {
          assert next == sets;
        }
      } else {
        PassWithin(keys, sets, i + 1, changed);
      }
    }
  }

  /** The `while True` loop: passes until one changes nothing. */
  function Eliminate(keys: seq<string>, sets: seq<set<string>>): (r: seq<set<string>>)
    requires |keys| == |sets|
    ensures |r| == |sets|
    decreases Total(sets)
  {
    var (next, changed) := Pass(keys, sets, 0, false);
    PassWithin(keys, sets, 0, false);
    if !changed then next
    else
      TotalWithin(next, sets);
      Eliminate(keys, next)
  }

  lemma {:induction false} EliminateWithin(keys: seq<string>, sets: seq<set<string>>)
    requires |keys| == |sets|
    ensures Within(Eliminate(keys, sets), sets)
    decreases Total(sets)
  {
    var (next, changed) := Pass(keys, sets, 0, false);
    PassWithin(keys, sets, 0, false);
    if changed {
      TotalWithin(next, sets);
      EliminateWithin(keys, next);
    }
  }

  /** No one-element set shares its element with the set of another key. */
  predicate Exclusive(keys: seq<string>, sets: seq<set<string>>)
    requires |keys| == |sets|
  {
    forall j, k :: 0 <= j < |sets| && 0 <= k < |sets| && keys[j] != keys[k] && |sets[j]| == 1 ==> Only(sets[j]) !in sets[k]
  }

  lemma {:induction false} PassStable(keys: seq<string>, sets: seq<set<string>>, i: nat)
    requires |keys| == |sets| && i <= |sets| && !Pass(keys, sets, i, false).1
    ensures forall j, k :: i <= j < |sets| && 0 <= k < |sets| && keys[j] != keys[k] && |sets[j]| == 1 ==> Only(sets[j]) !in sets[k]
    decreases |sets| - i
  {
    if i < |sets| {
      if |sets[i]| == 1 {
        var next := Removed(keys, sets, Only(sets[i]), keys[i]);
        RemovedShape(keys, sets, Only(sets[i]), keys[i]);
        PassWithin(keys, next, i + 1, next != sets);
        assert next == sets;
      }
      PassStable(keys, sets, i + 1);
    }
  }

  /** When elimination stops, every one-element set is exclusive. */
  lemma {:induction false} EliminateExclusive(keys: seq<string>, sets: seq<set<string>>)
    requires |keys| == |sets|
    ensures Exclusive(keys, Eliminate(keys, sets))
    decreases Total(sets)
  {
    var (next, changed) := Pass(keys, sets, 0, false);
    PassWithin(keys, sets, 0, false);
    if changed {
      TotalWithin(next, sets);
      EliminateExclusive(keys, next);
    } else {
      assert next == sets;
      PassStable(keys, sets, 0);
    }
  }

  /** `a` gives each key one of its possible ingredients, a different one for each key. */
  predicate Solves(keys: seq<string>, a: seq<string>, sets: seq<set<string>>) {
    |a| == |sets| == |keys| &&
    (forall i :: 0 <= i < |a| ==> a[i] in sets[i]) &&
    (forall i, j :: 0 <= i < |a| && 0 <= j < |a| && keys[i] != keys[j] ==> a[i] != a[j])
  }

  lemma {:induction false} PassKeeps(keys: seq<string>, a: seq<string>, sets: seq<set<string>>, i: nat, changed: bool)
    requires Solves(keys, a, sets) && i <= |sets|
    ensures Solves(keys, a, Pass(keys, sets, i, changed).0)
    decreases |sets| - i
  {
    if i < |sets| {
      if |sets[i]| == 1 {
        var next := Removed(keys, sets, Only(sets[i]), keys[i]);
        RemovedShape(keys, sets, Only(sets[i]), keys[i]);
        assert Only(sets[i]) == a[i];
        PassKeeps(keys, a, next, i + 1, changed || next != sets);
      } else {
        PassKeeps(keys, a, sets, i + 1, changed);
      }
    }
  }

  /** Elimination keeps every way of giving each allergen its own possible ingredient. */
  lemma {:induction false} EliminateKeeps(keys: seq<string>, a: seq<string>, sets: seq<set<string>>)
    requires Solves(keys, a, sets)
    ensures Solves(keys, a, Eliminate(keys, sets))
    decreases Total(sets)
  {
    var (next, changed) := Pass(keys, sets, 0, false);
    PassWithin(keys, sets, 0, false);
    PassKeeps(keys, a, sets, 0, false);
    if changed {
      TotalWithin(next, sets);
      EliminateKeeps(keys, a, next);
    }
  }

  /** Every key of `keys` has a food listing it. */
  predicate Listed(foods: seq<Food>, keys: seq<string>) {
    forall i :: 0 <= i < |keys| ==> keys[i] in AllAllergens(foods)
  }

  /** The dict comprehension: each allergen with its candidate ingredients. */
  function Candidates(foods: seq<Food>, keys: seq<string>): (r: seq<set<string>>)
    requires Listed(foods, keys)
    ensures |r| == |keys| && forall i :: 0 <= i < |keys| ==> PossibleIngredients(foods, keys[i]) == Ok(r[i])
  {
    seq(|keys|, i requires 0 <= i < |keys| && Listed(foods, keys) => Candidate(foods, keys[i]))
  }

  /** What elimination leaves for each allergen. */
  function Resolved(foods: seq<Food>, keys: seq<string>): (r: seq<set<string>>)
    requires Listed(foods, keys)
    ensures |r| == |keys|
  {
    Eliminate(keys, Candidates(foods, keys))
  }

  /** `{k: next(iter(v)) for k, v in possible_ingredients.items()}` over the first `n` entries. */
  function Assign(keys: seq<string>, sets: seq<set<string>>, n: nat): (m: map<string, string>)
    requires n <= |keys| == |sets| && forall i :: 0 <= i < |sets| ==> |sets[i]| == 1
    ensures forall a :: a in m <==> exists i :: 0 <= i < n && keys[i] == a
  {
    if n == 0 then map[] else Assign(keys, sets, n - 1)[keys[n - 1] := Only(sets[n - 1])]
  }

  /** With distinct keys, each key is mapped to the element of its own set. */
  lemma {:induction false} AssignAt(keys: seq<string>, sets: seq<set<string>>, n: nat, i: nat)
    requires n <= |keys| == |sets| && forall i :: 0 <= i < |sets| ==> |sets[i]| == 1
    requires forall j, k :: 0 <= j < k < |keys| ==> keys[j] != keys[k]
    requires i < n
    ensures Assign(keys, sets, n)[keys[i]] == Only(sets[i])
  {
    var prev := Assign(keys, sets, n - 1);
    assert Assign(keys, sets, n) == prev[keys[n - 1] := Only(sets[n - 1])];
    if i < n - 1 {
      assert keys[i] != keys[n - 1];
      AssignAt(keys, sets, n - 1, i);
    }
  }

  /**
   * What `find_allergens` returns, for the set iteration order `keys`:
   * AssertionError unless elimination left each allergen with one
   * ingredient, else each allergen mapped to that ingredient.
   */
  function FoundAllergens(foods: seq<Food>, keys: seq<string>): Result<map<string, string>>
    requires Listed(foods, keys)
  {
    var sets := Resolved(foods, keys);
    if exists i :: 0 <= i < |sets| && |sets[i]| != 1 then Err("AssertionError")
    else Ok(Assign(keys, sets, |keys|))
  }

  /** `find_allergens`, with its loops. */
  method FindAllergens(foods: seq<Food>, keys: seq<string>) returns (r: Result<map<string, string>>)
    requires Enumerates(keys, AllAllergens(foods))
    ensures r == FoundAllergens(foods, keys)
  {
    var possible := new set<string>[|keys|](i requires 0 <= i < |keys| && Listed(foods, keys) => Candidate(foods, keys[i]));
    assert possible[..] == Candidates(foods, keys);
    while true
      invariant Eliminate(keys, possible[..]) == Resolved(foods, keys)
      decreases Total(possible[..])
    {
      ghost var start := possible[..];
      var changed := false;
      for i := 0 to |keys|
        invariant Pass(keys, start, 0, false) == Pass(keys, possible[..], i, changed)
      {
        if |possible[i]| == 1 {
          var x :| x in possible[i];
          assert Only(possible[i]) == x;
          RemovedShape(keys, possible[..], x, keys[i]);
          var removed := RemoveFromOtherAllergens(keys, possible, x, keys[i]);
          changed := changed || removed;
        }
      }
      PassWithin(keys, start, 0, false);
      if !changed {
        break;
      }
      TotalWithin(possible[..], start);
    }
    var sets := possible[..];
    if exists i :: 0 <= i < |keys| && |possible[i]| != 1 {
      return Err("AssertionError");
    }
    return Ok(Assign(keys, sets, |keys|));
  }

  /** `find_allergens` has one key for each allergen some food lists. */
  lemma FoundAllergensKeys(foods: seq<Food>, keys: seq<string>)
    requires Enumerates(keys, AllAllergens(foods)) && FoundAllergens(foods, keys).Ok?
    ensures forall a :: a in FoundAllergens(foods, keys).value <==> a in AllAllergens(foods)
  {
  }

  /** `m` gives each allergen an ingredient of every food listing it, and different allergens different ingredients. */
  ghost predicate Explains(foods: seq<Food>, m: map<string, string>) {
    (forall a, k :: a in m && Lists(foods, a, k) ==> m[a] in foods[k].ingredients) &&
    (forall a, b :: a in m && b in m && a != b ==> m[a] != m[b])
  }

  /** Each allergen's ingredient is in every food that lists the allergen, and no ingredient has two allergens. */
  lemma FoundAllergensSound(foods: seq<Food>, keys: seq<string>)
    requires Enumerates(keys, AllAllergens(foods)) && FoundAllergens(foods, keys).Ok?
    ensures Explains(foods, FoundAllergens(foods, keys).value)
  {
    var m := FoundAllergens(foods, keys).value;
    var cands := Candidates(foods, keys);
    var sets := Resolved(foods, keys);
    EliminateWithin(keys, cands);
    EliminateExclusive(keys, cands);
    forall a, k | a in m && Lists(foods, a, k) ensures m[a] in foods[k].ingredients {
      var i :| 0 <= i < |keys| && keys[i] == a;
      AssignAt(keys, sets, |keys|, i);
      PossibleIngredientsMembers(foods, a);
      assert m[a] in cands[i];
    }
    forall a, b | a in m && b in m && a != b ensures m[a] != m[b] {
      var i :| 0 <= i < |keys| && keys[i] == a;
      var j :| 0 <= j < |keys| && keys[j] == b;
      AssignAt(keys, sets, |keys|, i);
      AssignAt(keys, sets, |keys|, j);
      assert Only(sets[i]) !in sets[j];
    }
  }

  /** The ingredients `m` gives the keys, in order. */
  function ValuesAt(m: map<string, string>, keys: seq<string>): (r: seq<string>)
    requires forall i :: 0 <= i < |keys| ==> keys[i] in m
    ensures |r| == |keys| && forall i :: 0 <= i < |keys| ==> r[i] == m[keys[i]]
  {
    seq(|keys|, i requires 0 <= i < |keys| && keys[i] in m => m[keys[i]])
  }

  /** An assignment that explains the foods picks one candidate per allergen, different for each. */
  lemma ExplainsSolves(foods: seq<Food>, keys: seq<string>, m: map<string, string>)
    requires Enumerates(keys, AllAllergens(foods))
    requires (forall a :: a in m <==> a in AllAllergens(foods)) && Explains(foods, m)
    ensures Solves(keys, ValuesAt(m, keys), Candidates(foods, keys))
  {
    var cands := Candidates(foods, keys);
    forall i | 0 <= i < |keys| ensures m[keys[i]] in cands[i] {
      PossibleIngredientsMembers(foods, keys[i]);
    }
  }

  lemma MapsEqual<K, V>(m: map<K, V>, r: map<K, V>)
    requires (forall x :: x in m <==> x in r) && forall x :: x in m ==> m[x] == r[x]
    ensures m == r
  {
  }

  /** Where `m` gives each key an element of its set, the comprehension agrees with `m`. */
  lemma {:induction false} AssignAgrees(keys: seq<string>, sets: seq<set<string>>, m: map<string, string>, n: nat)
    requires n <= |keys| == |sets| && forall i :: 0 <= i < |sets| ==> |sets[i]| == 1
    requires forall i :: 0 <= i < |keys| ==> keys[i] in m && m[keys[i]] in sets[i]
    ensures forall a :: a in Assign(keys, sets, n) ==> a in m && Assign(keys, sets, n)[a] == m[a]
  {
    if n > 0 {
      AssignAgrees(keys, sets, m, n - 1);
      assert m[keys[n - 1]] in sets[n - 1];
    }
  }

  /** A map giving each key an element of its one-element set is the comprehension over the keys. */
  lemma AssignUnique(keys: seq<string>, sets: seq<set<string>>, m: map<string, string>)
    requires |keys| == |sets| && forall i :: 0 <= i < |sets| ==> |sets[i]| == 1
    requires (forall a :: a in m <==> a in keys) && forall i :: 0 <= i < |keys| ==> m[keys[i]] in sets[i]
    ensures m == Assign(keys, sets, |keys|)
  {
    var r := Assign(keys, sets, |keys|);
    AssignAgrees(keys, sets, m, |keys|);
    assert forall a :: a in m ==> a in r;
    MapsEqual(m, r);
  }

  /** Any assignment that explains the foods is the one `find_allergens` returns. */
  lemma FoundAllergensUnique(foods: seq<Food>, keys: seq<string>, m: map<string, string>)
    requires Enumerates(keys, AllAllergens(foods)) && FoundAllergens(foods, keys).Ok?
    requires (forall a :: a in m <==> a in AllAllergens(foods)) && Explains(foods, m)
    ensures m == FoundAllergens(foods, keys).value
  {
    var sets := Resolved(foods, keys);
    assert FoundAllergens(foods, keys).value == Assign(keys, sets, |keys|);
    ExplainsSolves(foods, keys, m);
    EliminateKeeps(keys, ValuesAt(m, keys), Candidates(foods, keys));
    AssignUnique(keys, sets, m);
  }

  /** The set iteration order does not change a successful `find_allergens`. */
  lemma FoundAllergensOrderFree(foods: seq<Food>, keys1: seq<string>, keys2: seq<string>)
    requires Enumerates(keys1, AllAllergens(foods)) && FoundAllergens(foods, keys1).Ok?
    requires Enumerates(keys2, AllAllergens(foods)) && FoundAllergens(foods, keys2).Ok?
    ensures FoundAllergens(foods, keys1) == FoundAllergens(foods, keys2)
  {
    FoundAllergensSound(foods, keys1);
    FoundAllergensUnique(foods, keys2, FoundAllergens(foods, keys1).value);
  }

  // ---------------------------------------------------------------- counting

  /** `count_occurrences`: the number of foods with `ingredient`. */
  function Occurrences(foods: seq<Food>, ingredient: string): nat {
    if foods == [] then 0 else (if ingredient in foods[0].ingredients then 1 else 0) + Occurrences(foods[1..], ingredient)
  }

  /** At most one per food, and none exactly when no food has the ingredient. */
  lemma {:induction false} OccurrencesBounds(foods: seq<Food>, ingredient: string)
    ensures Occurrences(foods, ingredient) <= |foods|
    ensures Occurrences(foods, ingredient) == 0 <==> ingredient !in AllIngredients(foods)
  {
    if foods != [] {
      OccurrencesBounds(foods[1..], ingredient);
    }
  }

  /** Counting over two lists of foods adds up. */
  lemma {:induction false} OccurrencesAppend(a: seq<Food>, b: seq<Food>, ingredient: string)
    ensures Occurrences(a + b, ingredient) == Occurrences(a, ingredient) + Occurrences(b, ingredient)
  {
    if a != [] {
      var ab := a + b;
      assert ab != [] && ab[0] == a[0] && ab[1..] == a[1..] + b;
      OccurrencesAppend(a[1..], b, ingredient);
    } else {
      assert a + b == b;
    }
  }

  /** The number of (food, ingredient) pairs whose ingredient has no allergen: the same total counted food by food. */
  function NoAllergenTotal(foods: seq<Food>, values: set<string>): nat {
    if foods == [] then 0 else |foods[0].ingredients - values| + NoAllergenTotal(foods[1..], values)
  }

  /** The pairs of `NoAllergenTotal` whose ingredient is also in `s`. */
  function Among(foods: seq<Food>, s: set<string>, values: set<string>): nat {
    if foods == [] then 0 else |foods[0].ingredients * s - values| + Among(foods[1..], s, values)
  }

  lemma PickCard(ingredients: set<string>, s: set<string>, values: set<string>, x: string)
    requires x in s
    ensures |ingredients * s - values| == |ingredients * (s - {x}) - values| + (if x in ingredients && x !in values then 1 else 0)
  {
    var rest := ingredients * (s - {x}) - values;
    if x in ingredients && x !in values {
      assert ingredients * s - values == rest + {x};
    } else {
      assert ingredients * s - values == rest;
    }
  }

  /** Taking one ingredient out of `s` removes its occurrences, unless it has an allergen. */
  lemma {:induction false} AmongPick(foods: seq<Food>, s: set<string>, values: set<string>, x: string)
    requires x in s
    ensures Among(foods, s, values) == Among(foods, s - {x}, values) + (if x in values then 0 else Occurrences(foods, x))
  {
    if foods != [] {
      PickCard(foods[0].ingredients, s, values, x);
      AmongPick(foods[1..], s, values, x);
    }
  }

  lemma {:induction false} AmongAll(foods: seq<Food>, s: set<string>, values: set<string>)
    requires AllIngredients(foods) <= s
    ensures Among(foods, s, values) == NoAllergenTotal(foods, values)
  {
    if foods != [] {
      assert foods[0].ingredients * s == foods[0].ingredients;
      assert AllIngredients(foods[1..]) <= AllIngredients(foods);
      AmongAll(foods[1..], s, values);
    }
  }

  lemma {:induction false} AmongNone(foods: seq<Food>, values: set<string>)
    ensures Among(foods, {}, values) == 0
  {
    if foods != [] {
      assert foods[0].ingredients * {} - values == {};
      AmongNone(foods[1..], values);
    }
  }

  /**
   * `count_occurrences_with_no_allergens`: over every ingredient, in the
   * set's order, the occurrences of those that are no allergen's value.
   */
  method CountWithNoAllergens(foods: seq<Food>, allergens: map<string, string>) returns (total: nat)
    ensures total == NoAllergenTotal(foods, allergens.Values)
  {
    var values := allergens.Values;
    var all := AllIngredients(foods);
    var remaining := all;
    total := 0;
    AmongAll(foods, all, values);
    while remaining != {}
      invariant total + Among(foods, remaining, values) == NoAllergenTotal(foods, values)
      decreases |remaining|
    {
      var x :| x in remaining;
      AmongPick(foods, remaining, values, x);
      if x !in values {
        total := total + Occurrences(foods, x);
      }
      remaining := remaining - {x};
    }
    AmongNone(foods, values);
  }

  // ---------------------------------------------------------------- the sample (21/21.py:57-70)

  const SampleFoods: seq<Food> := [
    Food({"mxmxvkd", "kfcds", "sqjhc", "nhms"}, {"dairy", "fish"}),
    Food({"trh", "fvjkl", "sbzzf", "mxmxvkd"}, {"dairy"}),
    Food({"sqjhc", "fvjkl"}, {"soy"}),
    Food({"sqjhc", "mxmxvkd", "sbzzf"}, {"fish"})
  ]

  const SampleAllergens: map<string, string> := map["dairy" := "mxmxvkd", "fish" := "sqjhc", "soy" := "fvjkl"]

  /** The test's occurrence counts. */
  lemma SampleOccurrences()
    ensures Occurrences(SampleFoods, "kfcds") == 1 && Occurrences(SampleFoods, "nhms") == 1
    ensures Occurrences(SampleFoods, "trh") == 1 && Occurrences(SampleFoods, "sbzzf") == 2
  {
  }

  /** The sample's allergens are dairy, fish and soy. */
  lemma SampleAllAllergens()
    ensures AllAllergens(SampleFoods) == {"dairy", "fish", "soy"}
  {
  }

  /** The test's mapping explains the sample. */
  lemma SampleExplained()
    ensures Explains(SampleFoods, SampleAllergens)
  {
    forall a, k | a in SampleAllergens && Lists(SampleFoods, a, k) ensures SampleAllergens[a] in SampleFoods[k].ingredients {
      assert k == 0 || k == 1 || k == 2 || k == 3;
    }
  }

  /**
   * The test of `find_allergens` on the sample: whichever order the set
   * iterates its allergens in, a run that passes its assertion returns
   * dairy: mxmxvkd, fish: sqjhc, soy: fvjkl.
   */
  lemma SampleFindAllergens(keys: seq<string>)
    requires Enumerates(keys, AllAllergens(SampleFoods)) && FoundAllergens(SampleFoods, keys).Ok?
    ensures FoundAllergens(SampleFoods, keys) == Ok(SampleAllergens)
  {
    SampleAllAllergens();
    SampleExplained();
    FoundAllergensUnique(SampleFoods, keys, SampleAllergens);
  }

  /** The ingredients the sample's allergens are in. */
  lemma SampleValues()
    ensures SampleAllergens.Values == {"mxmxvkd", "sqjhc", "fvjkl"}
  {
    var values := SampleAllergens.Values;
    assert SampleAllergens["dairy"] == "mxmxvkd" && SampleAllergens["fish"] == "sqjhc" && SampleAllergens["soy"] == "fvjkl";
    forall v | v in values ensures v in {"mxmxvkd", "sqjhc", "fvjkl"} {
      var k :| k in SampleAllergens && SampleAllergens[k] == v;
    }
  }

  lemma SampleFoodsFree(values: set<string>)
    requires values == {"mxmxvkd", "sqjhc", "fvjkl"}
    ensures |SampleFoods[0].ingredients - values| == 2 && |SampleFoods[1].ingredients - values| == 2
    ensures |SampleFoods[2].ingredients - values| == 0 && |SampleFoods[3].ingredients - values| == 1
  {
    assert SampleFoods[0].ingredients - values == {"kfcds", "nhms"};
    assert SampleFoods[1].ingredients - values == {"trh", "sbzzf"};
    assert SampleFoods[2].ingredients - values == {};
    assert SampleFoods[3].ingredients - values == {"sbzzf"};
  }

  /** The test of `count_occurrences_with_no_allergens`: 5. */
  lemma SampleNoAllergens()
    ensures NoAllergenTotal(SampleFoods, SampleAllergens.Values) == 5
  {
    SampleValues();
    var values := SampleAllergens.Values;
    SampleFoodsFree(values);
    var f := SampleFoods;
    assert NoAllergenTotal(f[3..], values) == 1 + NoAllergenTotal(f[4..], values);
    assert NoAllergenTotal(f[2..], values) == 0 + NoAllergenTotal(f[3..], values);
    assert NoAllergenTotal(f[1..], values) == 2 + NoAllergenTotal(f[2..], values);
  }

  const SampleKeys: seq<string> := ["dairy", "fish", "soy"]

  lemma SampleDairy()
    ensures PossibleIngredients(SampleFoods, "dairy") == Ok({"mxmxvkd"})
  {
    var f := SampleFoods;
    assert CommonFrom(f, "dairy", 2) == None;
    assert CommonFrom(f, "dairy", 1) == Some(f[1].ingredients);
    assert f[0].ingredients * f[1].ingredients == {"mxmxvkd"};
  }

  lemma SampleFish()
    ensures PossibleIngredients(SampleFoods, "fish") == Ok({"mxmxvkd", "sqjhc"})
  {
    var f := SampleFoods;
    assert CommonFrom(f, "fish", 3) == Some(f[3].ingredients);
    assert CommonFrom(f, "fish", 1) == Some(f[3].ingredients);
    assert f[0].ingredients * f[3].ingredients == {"mxmxvkd", "sqjhc"};
  }

  lemma SampleSoy()
    ensures PossibleIngredients(SampleFoods, "soy") == Ok({"sqjhc", "fvjkl"})
  {
    var f := SampleFoods;
    assert CommonFrom(f, "soy", 3) == None;
    assert CommonFrom(f, "soy", 2) == Some(f[2].ingredients);
  }

  /** The candidates of the sample's allergens, in the order dairy, fish, soy. */
  lemma SampleCandidates()
    ensures Listed(SampleFoods, SampleKeys)
    ensures Candidates(SampleFoods, SampleKeys) == [{"mxmxvkd"}, {"mxmxvkd", "sqjhc"}, {"sqjhc", "fvjkl"}]
  {
    SampleAllAllergens();
    SampleDairy();
    SampleFish();
    SampleSoy();
  }

  /** A one-element set's element is the one it was written with. */
  lemma OnlyOf(x: string)
    ensures Only({x}) == x
  {
  }

  /** `Removed` on a dict of three allergens, entry by entry. */
  lemma RemovedThree(keys: seq<string>, sets: seq<set<string>>, x: string, a: string)
    requires |keys| == |sets| == 3
    ensures Removed(keys, sets, x, a) == [
      if keys[0] != a then sets[0] - {x} else sets[0],
      if keys[1] != a then sets[1] - {x} else sets[1],
      if keys[2] != a then sets[2] - {x} else sets[2]]
  {
  }

  /** The first pass: dairy frees fish's second candidate, then fish frees soy's. */
  lemma SampleFirstPass()
    ensures Pass(SampleKeys, [{"mxmxvkd"}, {"mxmxvkd", "sqjhc"}, {"sqjhc", "fvjkl"}], 0, false) ==
      ([{"mxmxvkd"}, {"sqjhc"}, {"fvjkl"}], true)
  {
    var k := SampleKeys;
    var s0: seq<set<string>> := [{"mxmxvkd"}, {"mxmxvkd", "sqjhc"}, {"sqjhc", "fvjkl"}];
    var s1: seq<set<string>> := [{"mxmxvkd"}, {"sqjhc"}, {"sqjhc", "fvjkl"}];
    var s2: seq<set<string>> := [{"mxmxvkd"}, {"sqjhc"}, {"fvjkl"}];
    assert k[0] == "dairy" && k[1] == "fish" && k[2] == "soy";
    OnlyOf("mxmxvkd");
    RemovedThree(k, s0, "mxmxvkd", "dairy");
    assert s0[1] - {"mxmxvkd"} == {"sqjhc"};
    assert s0[2] - {"mxmxvkd"} == s0[2];
    assert Removed(k, s0, "mxmxvkd", "dairy") == s1;
    assert s1 != s0 by {
      assert "mxmxvkd" in s0[1] && "mxmxvkd" !in s1[1];
    }
    OnlyOf("sqjhc");
    RemovedThree(k, s1, "sqjhc", "fish");
    assert s1[0] - {"sqjhc"} == s1[0];
    assert s1[2] - {"sqjhc"} == {"fvjkl"};
    assert Removed(k, s1, "sqjhc", "fish") == s2;
    OnlyOf("fvjkl");
    RemovedThree(k, s2, "fvjkl", "soy");
    assert s2[0] - {"fvjkl"} == s2[0];
    assert s2[1] - {"fvjkl"} == s2[1];
    assert Removed(k, s2, "fvjkl", "soy") == s2;
  }

  /** Removing an element that no other key's set holds changes nothing. */
  lemma RemovedNothing(keys: seq<string>, sets: seq<set<string>>, x: string, a: string)
    requires |keys| == |sets| && forall j :: 0 <= j < |sets| && keys[j] != a ==> x !in sets[j]
    ensures Removed(keys, sets, x, a) == sets
  {
    RemovedShape(keys, sets, x, a);
  }

  /** The second pass changes nothing. */
  lemma SampleSecondPass()
    ensures Pass(SampleKeys, [{"mxmxvkd"}, {"sqjhc"}, {"fvjkl"}], 0, false) == ([{"mxmxvkd"}, {"sqjhc"}, {"fvjkl"}], false)
  {
    var k := SampleKeys;
    var s2: seq<set<string>> := [{"mxmxvkd"}, {"sqjhc"}, {"fvjkl"}];
    assert k[0] == "dairy" && k[1] == "fish" && k[2] == "soy";
    OnlyOf("mxmxvkd");
    RemovedNothing(k, s2, "mxmxvkd", "dairy");
    OnlyOf("sqjhc");
    RemovedNothing(k, s2, "sqjhc", "fish");
    OnlyOf("fvjkl");
    RemovedNothing(k, s2, "fvjkl", "soy");
  }

  lemma SampleEliminate()
    ensures Eliminate(SampleKeys, [{"mxmxvkd"}, {"mxmxvkd", "sqjhc"}, {"sqjhc", "fvjkl"}]) == [{"mxmxvkd"}, {"sqjhc"}, {"fvjkl"}]
  {
    var s2: seq<set<string>> := [{"mxmxvkd"}, {"sqjhc"}, {"fvjkl"}];
    SampleFirstPass();
    SampleSecondPass();
    assert Eliminate(SampleKeys, s2) == s2;
  }

  /** Elimination on the sample leaves one ingredient per allergen. */
  lemma SampleResolved()
    ensures Listed(SampleFoods, SampleKeys)
    ensures Resolved(SampleFoods, SampleKeys) == [{"mxmxvkd"}, {"sqjhc"}, {"fvjkl"}]
  {
    SampleCandidates();
    SampleEliminate();
  }

  /** `find_allergens` passes its assertion when elimination leaves one ingredient per allergen. */
  lemma FoundAllergensOk(foods: seq<Food>, keys: seq<string>)
    requires Listed(foods, keys) && forall i :: 0 <= i < |keys| ==> |Resolved(foods, keys)[i]| == 1
    ensures FoundAllergens(foods, keys) == Ok(Assign(keys, Resolved(foods, keys), |keys|))
  {
  }

  lemma Singletons(sets: seq<set<string>>, x: string, y: string, z: string)
    requires sets == [{x}, {y}, {z}]
    ensures forall i :: 0 <= i < |sets| ==> |sets[i]| == 1
  {
    forall i | 0 <= i < |sets| ensures |sets[i]| == 1 {
      assert i == 0 || i == 1 || i == 2;
    }
  }

  lemma SampleKeysEnumerate()
    ensures Enumerates(SampleKeys, AllAllergens(SampleFoods))
  {
    SampleAllAllergens();
  }

  /** For the order dairy, fish, soy, `find_allergens` passes its assertion and returns the test's mapping. */
  lemma SampleFindAllergensRuns()
    ensures Enumerates(SampleKeys, AllAllergens(SampleFoods))
    ensures FoundAllergens(SampleFoods, SampleKeys) == Ok(SampleAllergens)
  {
    SampleKeysEnumerate();
    SampleResolved();
    Singletons(Resolved(SampleFoods, SampleKeys), "mxmxvkd", "sqjhc", "fvjkl");
    FoundAllergensOk(SampleFoods, SampleKeys);
    SampleFindAllergens(SampleKeys);
  }
}
