/**
 * Day 23, Crab Cups: labelled cups in a circle. Each move picks up the three
 * cups clockwise of the current cup, chooses a destination label (one less
 * than the current cup's, skipping picked-up labels and wrapping round to the
 * highest label left), and puts the three cups back, in order, right after
 * the destination cup. The next current cup is the one clockwise of the old.
 *
 * The script keeps the circle in one Python list that `del` and `insert`
 * change in place; here that list is the `cups` field of a `Circle`, and each
 * of its methods is specified by a function over the list's contents.
 */
module CrabCups {
  import opened Base
  import Py
  import Arith

  // ---------------------------------------------------------------- parse_input

  /** `list(map(int, s))`: every character is read by `int()` on its own. */
  function ParseCups(s: string): Result<seq<int>> {
    if s == [] then Ok([])
    else
      match Py.IntOfLine([s[0]])
      case None => Err("ValueError")
      case Some(n) =>
        match ParseCups(s[1..])
        case Err(e) => Err(e)
        case Ok(rest) => Ok([n] + rest)
  }

  /** `int()` of one character: its value when it is a decimal digit, else a ValueError. */
  lemma CupChar(c: char)
    ensures Py.IntOfLine([c]) == if Py.IsDigit(c) then Some(Py.DigitValue(c)) else None
  {
    if Py.IsSpaceChar(c) {
      assert Py.RStrip([c]) == [];
    } else {
      assert Py.RStrip([c]) == [c];
      assert Py.LStrip([c]) == [c];
      if Py.IsDigit(c) {
        assert Py.DigitsValue([c]) == Py.DigitValue(c) by {
          assert [c][..0] == [];
        }
      }
    }
  }

  /** The input is read successfully exactly when it is all digits, each becoming one cup. */
  lemma {:induction false} ParseCupsDigits(s: string)
    ensures ParseCups(s).Ok? <==> Py.AllDigits(s)
    ensures ParseCups(s).Ok? ==> |ParseCups(s).value| == |s|
    ensures ParseCups(s).Ok? ==> forall i :: 0 <= i < |s| ==> ParseCups(s).value[i] == Py.DigitValue(s[i])
  {
    if s != [] {
      CupChar(s[0]);
      DigitsCons(s);
      ParseCupsDigits(s[1..]);
    }
  }

  /** A string is all digits when its first character is one and the rest are all digits. */
  lemma DigitsCons(s: string)
    requires s != []
    ensures Py.AllDigits(s) <==> Py.IsDigit(s[0]) && Py.AllDigits(s[1..])
    ensures forall i :: 0 < i < |s| ==> s[i] == s[1..][i - 1]
  {
    if Py.IsDigit(s[0]) && Py.AllDigits(s[1..]) {
      forall i | 0 < i < |s| ensures Py.IsDigit(s[i]) {
        assert s[i] == s[1..][i - 1];
      }
    }
  }

  /** A line of digits reads as the cups those digits label. */
  lemma ParseCupsOk(s: string, cups: seq<int>)
    requires Py.AllDigits(s) && |cups| == |s|
    requires forall i :: 0 <= i < |s| ==> cups[i] == Py.DigitValue(s[i])
    ensures ParseCups(s) == Ok(cups)
  {
    ParseCupsDigits(s);
    SameElements(ParseCups(s).value, cups);
  }

  lemma SameElements(a: seq<int>, b: seq<int>)
    requires |a| == |b| && forall i :: 0 <= i < |a| ==> a[i] == b[i]
    ensures a == b
  {
  }

  // ---------------------------------------------------------------- list operations the script uses

  /** A slice bound as Python clamps it to a list of length `n`. */
  function Clamp(i: nat, n: nat): (r: nat)
    ensures r <= n
  {
    if i < n then i else n
  }

  /** `xs.insert(k, x)` for a non-negative index: past the end it appends. */
  function ListInsert<T>(xs: seq<T>, k: nat, x: T): (r: seq<T>)
    ensures |r| == |xs| + 1
  {
    if k < |xs| then xs[..k] + [x] + xs[k..] else xs + [x]
  }

  /** `max(xs)`: a largest element. */
  function Max(xs: seq<int>): (m: int)
    requires xs != []
    ensures m in xs && forall x :: x in xs ==> x <= m
  {
    if |xs| == 1 then xs[0]
    else
      var m := Max(xs[1..]);
      assert forall x :: x in xs ==> x == xs[0] || x in xs[1..];
      if xs[0] >= m then xs[0] else m
  }

  /** A largest element is the one `max` returns. */
  lemma MaxIs(xs: seq<int>, m: int)
    requires m in xs && forall i :: 0 <= i < |xs| ==> xs[i] <= m
    ensures Max(xs) == m
  {
    var i :| 0 <= i < |xs| && xs[i] == Max(xs);
  }

  /** `xs.index(x)` is the first place holding `x`. */
  lemma IndexOfFirst(xs: seq<int>, x: int, j: nat)
    requires j < |xs| && xs[j] == x && forall i :: 0 <= i < j ==> xs[i] != x
    ensures Py.IndexOf(xs, x) == Some(j)
  {
    assert x in xs;
  }

  predicate NonNegative(cups: seq<int>) {
    forall i :: 0 <= i < |cups| ==> cups[i] >= 0
  }

  predicate Positive(cups: seq<int>) {
    forall i :: 0 <= i < |cups| ==> cups[i] >= 1
  }

  /** Labels are a property of the cups, not of their order. */
  lemma SameCupsLabels(a: seq<int>, b: seq<int>)
    requires multiset(a) <= multiset(b)
    ensures NonNegative(b) ==> NonNegative(a)
    ensures Positive(b) ==> Positive(a)
  {
    forall i | 0 <= i < |a| ensures a[i] in b {
      assert a[i] in multiset(a);
    }
  }

  // ---------------------------------------------------------------- pop_next_cups

  /**
   * `pop_next_cups`: the list left behind and the cups taken, `num` of them
   * from `start` on, continuing at the front of the list when the end is hit.
   */
  function PopNext(cups: seq<int>, start: nat, num: nat): (seq<int>, seq<int>) {
    var lo, hi := Clamp(start, |cups|), Clamp(start + num, |cups|);
    var popped, rest := cups[lo..hi], cups[..lo] + cups[hi..];
    if |popped| < num then
      var k := Clamp(num - |popped|, |rest|);
      (rest[k..], popped + rest[..k])
    else (rest, popped)
  }

  /** Popping moves cups from the list to the result and loses none. */
  lemma PopNextKeepsCups(cups: seq<int>, start: nat, num: nat)
    ensures |PopNext(cups, start, num).1| == (if num < |cups| then num else |cups|)
    ensures |PopNext(cups, start, num).0| + |PopNext(cups, start, num).1| == |cups|
    ensures multiset(PopNext(cups, start, num).0) + multiset(PopNext(cups, start, num).1) == multiset(cups)
  {
    var lo, hi := Clamp(start, |cups|), Clamp(start + num, |cups|);
    var popped, rest := cups[lo..hi], cups[..lo] + cups[hi..];
    assert cups == cups[..lo] + popped + cups[hi..];
    assert multiset(cups) == multiset(rest) + multiset(popped);
    if |popped| < num {
      var k := Clamp(num - |popped|, |rest|);
      assert rest == rest[..k] + rest[k..];
      assert PopNext(cups, start, num) == (rest[k..], popped + rest[..k]);
    } else {
      assert PopNext(cups, start, num) == (rest, popped);
    }
  }

  /** The `num` cups clockwise from index `start` on, going round the circle. */
  function Clockwise(cups: seq<int>, start: nat, num: nat): (r: seq<int>)
    requires cups != []
    ensures |r| == num
  {
    seq(num, i requires 0 <= i < num => cups[(start + i) % |cups|])
  }

  /**
   * For a start inside the circle, the cups taken are the `num` cups from
   * `start` clockwise, in order, and the rest keeps its list order.
   */
  lemma PopNextWraps(cups: seq<int>, start: nat, num: nat)
    requires start <= |cups| && num <= |cups| && cups != []
    ensures PopNext(cups, start, num).1 == Clockwise(cups, start, num)
    ensures start + num <= |cups| ==> PopNext(cups, start, num).0 == cups[..start] + cups[start + num..]
    ensures start + num > |cups| ==> PopNext(cups, start, num).0 == cups[start + num - |cups|..start]
  {
    var n := |cups|;
    var popped := PopNext(cups, start, num).1;
    var want := Clockwise(cups, start, num);
    if start + num <= n {
      assert popped == cups[start..start + num];
      forall i | 0 <= i < num ensures popped[i] == want[i] {
        WrapIndex(start + i, n);
      }
    } else {
      var rest0 := cups[..start];
      var k := num - (n - start);
      assert rest0 == cups[..start] + cups[n..];
      assert rest0[k..] == cups[k..start];
      assert popped == cups[start..] + rest0[..k];
      forall i | 0 <= i < num ensures popped[i] == want[i] {
        WrapIndex(start + i, n);
      }
    }
  }

  /** An index at most once round the circle past its end. */
  lemma WrapIndex(a: int, n: int)
    requires 0 < n && 0 <= a < 2 * n
    ensures a % n == if a < n then a else a - n
  {
    if a < n {
      Arith.DivModUnique(a, n, 0, a);
    } else {
      Arith.DivModUnique(a, n, 1, a - n);
    }
  }

  // ---------------------------------------------------------------- insert_cups

  /** The cups `moved` one after another at position `start`, or at the end when `start` is past it. */
  function Inserted(cups: seq<int>, moved: seq<int>, start: nat): seq<int> {
    var s := if start < |cups| then start else |cups|;
    cups[..s] + moved + cups[s..]
  }

  lemma InsertedKeepsCups(cups: seq<int>, moved: seq<int>, start: nat)
    ensures |Inserted(cups, moved, start)| == |cups| + |moved|
    ensures multiset(Inserted(cups, moved, start)) == multiset(cups) + multiset(moved)
  {
    var s := if start < |cups| then start else |cups|;
    assert cups == cups[..s] + cups[s..];
  }

  /** Inside the list, the moved cups form one run at `start`, with the old cups on either side. */
  lemma InsertedPlaces(cups: seq<int>, moved: seq<int>, start: nat)
    requires start <= |cups|
    ensures Inserted(cups, moved, start)[..start] == cups[..start]
    ensures Inserted(cups, moved, start)[start..start + |moved|] == moved
    ensures Inserted(cups, moved, start)[start + |moved|..] == cups[start..]
  {
    ThreeParts(cups[..start], moved, cups[start..]);
  }

  lemma ThreeParts<T>(a: seq<T>, b: seq<T>, c: seq<T>)
    ensures (a + b + c)[..|a|] == a
    ensures (a + b + c)[|a|..|a| + |b|] == b
    ensures (a + b + c)[|a| + |b|..] == c
  {
  }

  /** One more `insert` extends the inserted run by one cup. */
  lemma InsertedNext(cups: seq<int>, moved: seq<int>, start: nat, i: nat)
    requires i < |moved|
    ensures ListInsert(Inserted(cups, moved[..i], start), start + i, moved[i]) == Inserted(cups, moved[..i + 1], start)
  {
    var s := if start < |cups| then start else |cups|;
    var before := Inserted(cups, moved[..i], start);
    assert moved[..i + 1] == moved[..i] + [moved[i]];
    if start + i < |before| {
      assert start <= |cups| && s == start;
      assert before[..start + i] == cups[..s] + moved[..i];
      assert before[start + i..] == cups[s..];
    } else {
      assert s == |cups|;
      assert cups[s..] == [];
    }
  }

  // ---------------------------------------------------------------- the destination of move_cups

  /**
   * The search loop of `move_cups` from label `t`: a label still in the
   * circle ends it; otherwise the next lower label is tried, and below 1 the
   * highest label left. `max` of an empty list is a ValueError.
   */
  function Seek(cups: seq<int>, t: int): Result<int>
    requires t >= 1
    decreases t
  {
    if t in cups then Ok(t)
    else if t == 1 then (if cups == [] then Err("ValueError") else Ok(Max(cups)))
    else Seek(cups, t - 1)
  }

  /**
   * The label `move_cups` settles on for the current cup `current`; `None`
   * where its loop never ends: a current cup labelled 0 makes the target
   * negative, and with no negative labels the loop only counts down.
   */
  function DestinationLabel(cups: seq<int>, current: int): Option<Result<int>>
    requires NonNegative(cups)
  {
    var t := current - 1;
    if t < 0 then None
    else if t == 0 then Some(if cups == [] then Err("ValueError") else Ok(Max(cups)))
    else Some(Seek(cups, t))
  }

  /**
   * The destination rule among the cups `left`: when some label is below
   * the current one, the highest such label; when none is, the highest label.
   */
  ghost predicate IsDestination(dest: int, left: multiset<int>, current: int) {
    && dest in left
    && (forall x :: x in left && 1 <= x < current ==> 1 <= dest < current && x <= dest)
    && (!(1 <= dest < current) ==> forall x :: x in left ==> x <= dest)
  }

  /** One turn of the search loop. */
  lemma SeekStep(cups: seq<int>, t: int)
    requires t >= 1 && t !in cups
    ensures Seek(cups, t) == if t == 1 then (if cups == [] then Err("ValueError") else Ok(Max(cups))) else Seek(cups, t - 1)
  {
  }

  lemma {:induction false} SeekRule(cups: seq<int>, t: int)
    requires t >= 1 && cups != []
    ensures Seek(cups, t).Ok?
    ensures IsDestination(Seek(cups, t).value, multiset(cups), t + 1)
    decreases t
  {
    var left := multiset(cups);
    if t in cups {
      assert t in left;
    } else if t == 1 {
      var m := Max(cups);
      assert m in left;
      forall x | x in left ensures x <= m {
        assert x in cups;
      }
      assert t !in left;
    } else {
      SeekRule(cups, t - 1);
      var dest := Seek(cups, t).value;
      assert t !in left;
    }
  }

  /** Whenever some cup is left and the current label is positive, the search ends on the rule's label. */
  lemma DestinationRule(cups: seq<int>, current: int)
    requires NonNegative(cups) && cups != [] && current >= 1
    ensures DestinationLabel(cups, current).Some? && DestinationLabel(cups, current).value.Ok?
    ensures IsDestination(DestinationLabel(cups, current).value.value, multiset(cups), current)
  {
    if current == 1 {
      var m := Max(cups);
      assert m in multiset(cups);
      forall x | x in multiset(cups) ensures x <= m {
        assert x in cups;
      }
    } else {
      SeekRule(cups, current - 1);
    }
  }

  /** The search stops on a cup only by finding it; a 0 label never ends it, whatever the circle. */
  lemma DestinationFails(cups: seq<int>, current: int)
    requires NonNegative(cups)
    ensures DestinationLabel(cups, current).None? <==> current <= 0
    ensures DestinationLabel(cups, current) == Some(Err("ValueError")) <==> current >= 1 && cups == []
    ensures DestinationLabel(cups, current).Some? && DestinationLabel(cups, current).value.Err? ==> cups == []
  {
    if current >= 2 && cups == [] {
      SeekEmpty(current - 1);
    } else if current >= 2 {
      SeekRule(cups, current - 1);
    }
  }

  lemma {:induction false} SeekEmpty(t: int)
    requires t >= 1
    ensures Seek([], t) == Err("ValueError")
    decreases t
  {
    if t > 1 {
      SeekEmpty(t - 1);
    }
  }

  // ---------------------------------------------------------------- move_cups

  /** The three cups clockwise of the current one. */
  function Picked(cups: seq<int>, ci: nat): (p: seq<int>)
    requires ci < |cups|
    ensures |p| == 3
  {
    Clockwise(cups, ci + 1, 3)
  }

  /**
   * The second half of `move_cups`: the destination is sought among the
   * cups `rest` left after the pick-up and the cups `picked` go in after it.
   */
  function Place(rest: seq<int>, picked: seq<int>, current: int): Option<Result<seq<int>>>
    requires NonNegative(rest)
  {
    match DestinationLabel(rest, current)
    case None => None
    case Some(Err(e)) => Some(Err(e))
    case Some(Ok(dest)) =>
      DestinationFound(rest, current);
      Some(Ok(Inserted(rest, picked, Py.IndexOf(rest, dest).value + 1)))
  }

  /**
   * `move_cups` at index `ci`: the circle afterwards, `None` where the
   * search loop never ends, and the ValueError of `max` on an empty list.
   */
  function Move(cups: seq<int>, ci: nat): Option<Result<seq<int>>>
    requires ci < |cups| && NonNegative(cups)
  {
    var p := PopNext(cups, ci + 1, 3);
    PopNextKeepsCups(cups, ci + 1, 3);
    SameCupsLabels(p.0, cups);
    Place(p.0, p.1, cups[ci])
  }

  /** A label the search settles on is on a cup of the circle. */
  lemma DestinationFound(cups: seq<int>, current: int)
    requires NonNegative(cups)
    ensures DestinationLabel(cups, current).Some? && DestinationLabel(cups, current).value.Ok? ==>
      DestinationLabel(cups, current).value.value in cups
  {
    if current - 1 >= 1 {
      SeekFinds(cups, current - 1);
    }
  }

  lemma {:induction false} SeekFinds(cups: seq<int>, t: int)
    requires t >= 1
    ensures Seek(cups, t).Ok? ==> Seek(cups, t).value in cups
    decreases t
  {
    if t > 1 && t !in cups {
      SeekFinds(cups, t - 1);
    }
  }

  /** Putting the cups back loses none and adds none. */
  lemma PlaceKeepsCups(rest: seq<int>, picked: seq<int>, current: int)
    requires NonNegative(rest)
    ensures Place(rest, picked, current).Some? && Place(rest, picked, current).value.Ok? ==>
      multiset(Place(rest, picked, current).value.value) == multiset(rest) + multiset(picked)
  {
    match DestinationLabel(rest, current)
    case None =>
    case Some(Err(e)) =>
    case Some(Ok(dest)) =>
      DestinationFound(rest, current);
      InsertedKeepsCups(rest, picked, Py.IndexOf(rest, dest).value + 1);
  }

  /** The cups left after a pick-up are labelled as the circle was. */
  lemma PopNextLabels(cups: seq<int>, start: nat, num: nat)
    requires NonNegative(cups)
    ensures NonNegative(PopNext(cups, start, num).0)
  {
    PopNextKeepsCups(cups, start, num);
    SameCupsLabels(PopNext(cups, start, num).0, cups);
  }

  /** A move is its pick-up followed by placing the picked cups. */
  lemma MoveStages(cups: seq<int>, ci: nat, rest: seq<int>, picked: seq<int>)
    requires ci < |cups| && NonNegative(cups) && PopNext(cups, ci + 1, 3) == (rest, picked)
    ensures NonNegative(rest) && Move(cups, ci) == Place(rest, picked, cups[ci])
  {
    PopNextLabels(cups, ci + 1, 3);
  }

  /** Placing is finding the destination and inserting the picked cups right after it. */
  lemma PlaceBy(rest: seq<int>, picked: seq<int>, current: int, dest: int, d: nat, next: seq<int>)
    requires NonNegative(rest) && DestinationLabel(rest, current) == Some(Ok(dest))
    requires Py.IndexOf(rest, dest) == Some(d) && Inserted(rest, picked, d + 1) == next
    ensures Place(rest, picked, current) == Some(Ok(next))
  {
  }

  /** A move loses no cup and adds none. */
  lemma MoveKeepsCups(cups: seq<int>, ci: nat)
    requires ci < |cups| && NonNegative(cups)
    ensures Move(cups, ci).Some? && Move(cups, ci).value.Ok? ==> (
      && |Move(cups, ci).value.value| == |cups|
      && multiset(Move(cups, ci).value.value) == multiset(cups))
  {
    var p := PopNext(cups, ci + 1, 3);
    PopNextKeepsCups(cups, ci + 1, 3);
    SameCupsLabels(p.0, cups);
    PlaceKeepsCups(p.0, p.1, cups[ci]);
    if Move(cups, ci).Some? && Move(cups, ci).value.Ok? {
      assert |Move(cups, ci).value.value| == |multiset(cups)|;
    }
  }

  /** A move has no outcome when the current cup is labelled 0, and fails when three or fewer cups leave none behind. */
  lemma MoveFails(cups: seq<int>, ci: nat)
    requires ci < |cups| && NonNegative(cups)
    ensures Move(cups, ci).None? <==> cups[ci] == 0
    ensures Move(cups, ci) == Some(Err("ValueError")) <==> cups[ci] >= 1 && |cups| <= 3
  {
    var p := PopNext(cups, ci + 1, 3);
    PopNextKeepsCups(cups, ci + 1, 3);
    SameCupsLabels(p.0, cups);
    DestinationFails(p.0, cups[ci]);
  }

  /**
   * When some cup is left and the current label is positive, the picked
   * cups go back as one run from index `d`, right after the cup the
   * destination rule picks among the cups left.
   */
  lemma PlaceRule(rest: seq<int>, picked: seq<int>, current: int) returns (d: nat)
    requires NonNegative(rest) && rest != [] && current >= 1
    ensures Place(rest, picked, current).Some? && Place(rest, picked, current).value.Ok?
    ensures 1 <= d && d + |picked| <= |Place(rest, picked, current).value.value|
    ensures Place(rest, picked, current).value.value[d..d + |picked|] == picked
    ensures IsDestination(Place(rest, picked, current).value.value[d - 1], multiset(rest), current)
  {
    DestinationRule(rest, current);
    DestinationFound(rest, current);
    var dest := DestinationLabel(rest, current).value.value;
    d := Py.IndexOf(rest, dest).value + 1;
    var r := Inserted(rest, picked, d);
    InsertedPlaces(rest, picked, d);
    assert r[d - 1] == r[..d][d - 1] == rest[..d][d - 1];
  }

  /**
   * With at least four cups and a positive current label, the move succeeds
   * and the three cups clockwise of the current one sit, still in order,
   * from index `d` on, right after the destination cup that the rule picks
   * among the others.
   */
  lemma MoveRule(cups: seq<int>, ci: nat) returns (d: nat)
    requires ci < |cups| && 4 <= |cups| && NonNegative(cups) && cups[ci] >= 1
    ensures Move(cups, ci).Some? && Move(cups, ci).value.Ok?
    ensures 1 <= d <= |Move(cups, ci).value.value| - 3
    ensures Move(cups, ci).value.value[d..d + 3] == Picked(cups, ci)
    ensures IsDestination(Move(cups, ci).value.value[d - 1], multiset(cups) - multiset(Picked(cups, ci)), cups[ci])
  {
    var p := PopNext(cups, ci + 1, 3);
    MovePicks(cups, ci);
    MoveLeaves(cups, ci);
    assert Move(cups, ci) == Place(p.0, p.1, cups[ci]);
    var left := multiset(cups) - multiset(Picked(cups, ci));
    d := PlaceRule(p.0, p.1, cups[ci]);
    var r := Move(cups, ci).value.value;
    assert r[d..d + |p.1|] == p.1;
    assert d + |p.1| == d + 3;
    SameDestination(r[d - 1], multiset(p.0), left, cups[ci]);
  }

  /** With at least four cups, the pick-up takes the three cups clockwise of the current one. */
  lemma MovePicks(cups: seq<int>, ci: nat)
    requires ci < |cups| && 4 <= |cups|
    ensures PopNext(cups, ci + 1, 3).1 == Picked(cups, ci)
  {
    PopNextWraps(cups, ci + 1, 3);
  }

  /** The pick-up leaves the other cups, at least one of them when there were four. */
  lemma MoveLeaves(cups: seq<int>, ci: nat)
    requires ci < |cups| && 4 <= |cups| && NonNegative(cups)
    ensures multiset(PopNext(cups, ci + 1, 3).0) == multiset(cups) - multiset(PopNext(cups, ci + 1, 3).1)
    ensures PopNext(cups, ci + 1, 3).0 != [] && NonNegative(PopNext(cups, ci + 1, 3).0)
  {
    var p := PopNext(cups, ci + 1, 3);
    PopNextKeepsCups(cups, ci + 1, 3);
    Leaves(p.0, p.1, cups);
  }

  lemma Leaves(rest: seq<int>, picked: seq<int>, cups: seq<int>)
    requires multiset(rest) + multiset(picked) == multiset(cups) && NonNegative(cups)
    requires |rest| + |picked| == |cups| && |picked| < |cups|
    ensures multiset(rest) == multiset(cups) - multiset(picked)
    ensures rest != [] && NonNegative(rest)
  {
    SameCupsLabels(rest, cups);
  }

  lemma SameDestination(dest: int, a: multiset<int>, b: multiset<int>, current: int)
    requires a == b && IsDestination(dest, a, current)
    ensures IsDestination(dest, b, current)
  {
  }

  // ---------------------------------------------------------------- play_game

  /**
   * `play_game` from index `index` for `rounds` more moves: each move is
   * made at the current index, and the next index is the one clockwise of
   * where the current cup ended up.
   */
  function Play(cups: seq<int>, index: nat, rounds: nat): Option<Result<seq<int>>>
    requires NonNegative(cups)
    decreases rounds
  {
    if rounds == 0 then Some(Ok(cups))
    else if index >= |cups| then Some(Err("IndexError"))
    else
      match Move(cups, index)
      case None => None
      case Some(Err(e)) => Some(Err(e))
      case Some(Ok(next)) =>
        MoveKeepsCups(cups, index);
        SameCupsLabels(next, cups);
        match Py.IndexOf(next, cups[index])
        case None => Some(Err("ValueError"))
        case Some(k) => Play(next, (k + 1) % |next|, rounds - 1)
  }

  /** One round of `play_game`, as the loop makes it. */
  lemma PlayStep(cups: seq<int>, index: nat, rounds: nat)
    requires NonNegative(cups) && rounds >= 1 && index < |cups|
    ensures Move(cups, index).None? ==> Play(cups, index, rounds).None?
    ensures Move(cups, index).Some? && Move(cups, index).value.Err? ==>
      Play(cups, index, rounds) == Some(Err(Move(cups, index).value.msg))
    ensures Move(cups, index).Some? && Move(cups, index).value.Ok? ==> (
      var next := Move(cups, index).value.value;
      && NonNegative(next)
      && Play(cups, index, rounds) == match Py.IndexOf(next, cups[index])
           case None => Some(Err("ValueError"))
           case Some(k) => Play(next, (k + 1) % |next|, rounds - 1))
  {
    MoveKeepsCups(cups, index);
    if Move(cups, index).Some? && Move(cups, index).value.Ok? {
      SameCupsLabels(Move(cups, index).value.value, cups);
    }
  }

  /** With at least four cups, all labelled from 1, every game ends normally and keeps its cups. */
  lemma {:induction false} PlayKeepsCups(cups: seq<int>, index: nat, rounds: nat)
    requires 4 <= |cups| && Positive(cups) && index < |cups|
    ensures Play(cups, index, rounds).Some? && Play(cups, index, rounds).value.Ok?
    ensures |Play(cups, index, rounds).value.value| == |cups|
    ensures multiset(Play(cups, index, rounds).value.value) == multiset(cups)
    decreases rounds
  {
    if rounds > 0 {
      var _ := MoveRule(cups, index);
      MoveKeepsCups(cups, index);
      PlayStep(cups, index, rounds);
      var next := Move(cups, index).value.value;
      SameCupsLabels(next, cups);
      assert cups[index] in next by {
        assert cups[index] in multiset(cups);
      }
      var k := Py.IndexOf(next, cups[index]).value;
      PlayKeepsCups(next, (k + 1) % |next|, rounds - 1);
    }
  }

  // ---------------------------------------------------------------- cups_after

  /** `cups_after`: the labels clockwise of cup `n`, without it. */
  function CupsAfter(cups: seq<int>, n: int): Result<seq<int>> {
    match Py.IndexOf(cups, n)
    case None => Err("ValueError")
    case Some(start) => Ok(cups[start + 1..] + cups[..start])
  }

  /** The result goes once round the circle from the cup after `n`'s first place, stopping short of it. */
  lemma CupsAfterRotation(cups: seq<int>, n: int)
    ensures CupsAfter(cups, n).Ok? <==> n in cups
    ensures n in cups ==> CupsAfter(cups, n).value == Clockwise(cups, Py.IndexOf(cups, n).value + 1, |cups| - 1)
  {
    if n in cups {
      var start := Py.IndexOf(cups, n).value;
      var after, before := cups[start + 1..], cups[..start];
      var r := after + before;
      assert CupsAfter(cups, n) == Ok(r);
      var want := Clockwise(cups, start + 1, |cups| - 1);
      forall i | 0 <= i < |r| ensures r[i] == want[i] {
        WrapIndex(start + 1 + i, |cups|);
      }
      assert r == want;
    }
  }

  /** Every cup but `n` is in the result, once for each time it is in the circle. */
  lemma CupsAfterKeepsCups(cups: seq<int>, n: int)
    requires n in cups
    ensures CupsAfter(cups, n).Ok? && multiset(CupsAfter(cups, n).value) + multiset{n} == multiset(cups)
  {
    var start := Py.IndexOf(cups, n).value;
    var after, before := cups[start + 1..], cups[..start];
    assert CupsAfter(cups, n) == Ok(after + before);
    assert cups == before + [n] + after;
    assert multiset(cups) == multiset(before) + multiset{n} + multiset(after);
  }

  /**
   * The search loop of `move_cups` over the cups `rest` left after the
   * pick-up. Where the script would loop for ever, the result is `None`.
   */
  method SeekDestination(rest: seq<int>, current: int) returns (r: Option<Result<int>>)
    requires NonNegative(rest)
    ensures r == DestinationLabel(rest, current)
  {
    var target := current - 1;
    if target < 0 {
      return None;
    }
    if target == 0 {
      if rest == [] {
        return Some(Err("ValueError"));
      }
      target := Max(rest);
    }
    while target !in rest
      invariant target !in rest ==> target >= 1 && DestinationLabel(rest, current) == Some(Seek(rest, target))
      invariant target in rest ==> DestinationLabel(rest, current) == Some(Ok(target))
      decreases if target in rest then 0 else target
    {
      SeekStep(rest, target);
      target := target - 1;
      if target == 0 {
        if rest == [] {
          return Some(Err("ValueError"));
        }
        target := Max(rest);
      }
    }
    return Some(Ok(target));
  }

  // ---------------------------------------------------------------- the list as the script mutates it

  class Circle {
    var cups: seq<int>

    constructor (labels: seq<int>)
      ensures cups == labels
    {
      cups := labels;
    }

    /** `pop_next_cups(cups, start, num)`. */
    method PopNextCups(start: nat, num: nat) returns (popped: seq<int>)
      modifies this
      ensures (cups, popped) == PopNext(old(cups), start, num)
    {
      var lo, hi := Clamp(start, |cups|), Clamp(start + num, |cups|);
      popped := cups[lo..hi];
      cups := cups[..lo] + cups[hi..];
      if |popped| < num {
        var k := Clamp(num - |popped|, |cups|);
        popped := popped + cups[..k];
        cups := cups[k..];
      }
    }

    /** `insert_cups(cups, moved, start)`: one `insert` per moved cup. */
    method InsertCups(moved: seq<int>, start: nat)
      modifies this
      ensures cups == Inserted(old(cups), moved, start)
    {
      assert moved[..0] == [];
      for i := 0 to |moved|
        invariant cups == Inserted(old(cups), moved[..i], start)
      {
        InsertedNext(old(cups), moved, start, i);
        cups := ListInsert(cups, start + i, moved[i]);
      }
      assert moved[..|moved|] == moved;
    }

    /**
     * `move_cups(cups, ci)`. A ValueError leaves the list empty; `None` is
     * the loop that never ends.
     */
    method MoveCups(ci: nat) returns (r: Option<Result<()>>)
      requires ci < |cups| && NonNegative(cups)
      modifies this
      ensures match Move(old(cups), ci)
        case None => r.None?
        case Some(Err(e)) => r == Some(Err(e)) && cups == []
        case Some(Ok(next)) => r == Some(Ok(())) && cups == next
    {
      ghost var start := cups;
      var current := cups[ci];
      var picked := PopNextCups(ci + 1, 3);
      var rest := cups;
      PopNextKeepsCups(start, ci + 1, 3);
      SameCupsLabels(rest, start);
      assert Move(start, ci) == Place(rest, picked, current);
      var found := SeekDestination(rest, current);
      match found
      case None =>
        return None;
      case Some(Err(e)) =>
        DestinationFails(rest, current);
        return Some(Err(e));
      case Some(Ok(target)) =>
        DestinationFound(rest, current);
        var dest := Py.IndexOf(rest, target).value + 1;
        InsertCups(picked, dest);
        return Some(Ok(()));
    }

    /** `play_game(cups, rounds)`. */
    method PlayGame(rounds: nat) returns (r: Option<Result<()>>)
      requires NonNegative(cups)
      modifies this
      ensures match Play(old(cups), 0, rounds)
        case None => r.None?
        case Some(Err(e)) => r == Some(Err(e))
        case Some(Ok(final)) => r == Some(Ok(())) && cups == final
    {
      ghost var goal := Play(cups, 0, rounds);
      var index: nat := 0;
      for round := 0 to rounds
        invariant NonNegative(cups)
        invariant goal == Play(cups, index, rounds - round)
      {
        if index >= |cups| {
          return Some(Err("IndexError"));
        }
        var current := cups[index];
        ghost var before := cups;
        PlayStep(before, index, rounds - round);
        var moved := MoveCups(index);
        if moved.None? {
          return None;
        }
        if moved.value.Err? {
          return Some(Err(moved.value.msg));
        }
        var found := Py.IndexOf(cups, current);
        if found.None? {
          return Some(Err("ValueError"));
        }
        index := (found.value + 1) % |cups|;
      }
      return Some(Ok(()));
    }
  }
}
