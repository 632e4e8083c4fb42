/**
 * Day 18 (18/18.py): arithmetic in which `+` and `*` have the same
 * precedence and are applied left to right. `parse_string` takes the last
 * top-level token off the end of the text as the right operand, the token
 * before it as the operator and the rest as the left operand, so the last
 * top-level operator becomes the root of the tree; `evaluate` then folds
 * the tree.
 */
module Operations {
  import opened Base
  import Py

  /** An `Expression(lhs, op, rhs)` or a bare `int`. */
  datatype Expr = Num(n: int) | Binary(lhs: Expr, op: char, rhs: Expr)

  // ---------------------------------------------------------------- parentheses

  /** How the `parens` counter changes on one character. */
  function Delta(c: char): int {
    if c == '(' then 1 else if c == ')' then -1 else 0
  }

  /** Opened minus closed parentheses in `s`. */
  function Depth(s: string): int {
    if s == [] then 0 else Depth(s[..|s| - 1]) + Delta(s[|s| - 1])
  }

  /** Every prefix closes no more than it opened, and the whole closes all. */
  predicate Balanced(s: string) {
    Depth(s) == 0 && forall k :: 0 <= k <= |s| ==> Depth(s[..k]) >= 0
  }

  /**
   * The loop of `is_single_expr_in_parens` from position `i` on, with the
   * counter at `parens`: the position of the `)` that brings the counter to
   * zero, if any.
   */
  function ScanClose(s: string, i: nat, parens: int): (r: Option<nat>)
    requires i <= |s|
    ensures r.Some? ==> i <= r.value < |s| && s[r.value] == ')'
    decreases |s| - i
  {
    if i == |s| then None
    else if s[i] == '(' then ScanClose(s, i + 1, parens + 1)
    else if s[i] == ')' then
      (if parens - 1 == 0 then Some(i) else ScanClose(s, i + 1, parens - 1))
    else ScanClose(s, i + 1, parens)
  }

  /**
   * `is_single_expr_in_parens(s)`: an `IndexError` on the empty string; a
   * loop that ends without returning gives `None`, which the `while` of
   * `parse_string` reads as false.
   */
  function SingleGroup(s: string): Result<bool> {
    if s == [] then Err("IndexError")
    else if s[0] != '(' then Ok(false)
    else Ok(ScanClose(s, 0, 0) == Some(|s| - 1))
  }

  method IsSingleExprInParens(s: string) returns (r: Result<bool>)
    ensures r == SingleGroup(s)
  {
    if s == [] {
      return Err("IndexError");
    }
    if s[0] != '(' {
      return Ok(false);
    }
    var parens := 0;
    for i := 0 to |s|
      invariant ScanClose(s, 0, 0) == ScanClose(s, i, parens)
    {
      var c := s[i];
      if c == '(' {
        parens := parens + 1;
      } else if c == ')' {
        parens := parens - 1;
        if parens == 0 {
          return Ok(i == |s| - 1);
        }
      }
    }
    return Ok(false);
  }

  // ---------------------------------------------------------------- get_end_token

  /** What `get_end_token` returns: a pair, the bare string, or `None`. */
  datatype EndTok = Pair(token: string, rest: string) | Bare(text: string) | NoToken

  /**
   * The loop over `reversed(s)` in `get_end_token` from step `i` on, with
   * the counter at `parens`: the step of the `(` that brings it to zero.
   */
  function ScanOpen(s: string, i: nat, parens: int): (r: Option<nat>)
    requires i <= |s|
    ensures r.Some? ==> i <= r.value < |s| && s[|s| - 1 - r.value] == '('
    decreases |s| - i
  {
    if i == |s| then None
    else if s[|s| - 1 - i] == ')' then ScanOpen(s, i + 1, parens + 1)
    else if s[|s| - 1 - i] == '(' then
      (if parens - 1 == 0 then Some(i) else ScanOpen(s, i + 1, parens - 1))
    else ScanOpen(s, i + 1, parens)
  }

  /** The first step of `reversed(s)`, from step `i` on, that meets a space. */
  function LastSpace(s: string, i: nat): (r: Option<nat>)
    requires i <= |s|
    ensures r.Some? ==> i <= r.value < |s| && s[|s| - 1 - r.value] == ' '
    decreases |s| - i
  {
    if i == |s| then None
    else if s[|s| - 1 - i] == ' ' then Some(i)
    else LastSpace(s, i + 1)
  }

  /**
   * `get_end_token(s)`: `s[-1]` raises `IndexError` on the empty string; a
   * text ending in `)` gives the inside of its group and what lies before
   * the `" ("` that opens it; any other text gives what follows its last
   * space and what precedes that space (`s[-0:]` being the whole text).
   */
  function EndToken(s: string): (r: Result<EndTok>)
    ensures r.Ok? && r.value.Pair? ==> |r.value.rest| < |s| && |r.value.token| <= |s|
    ensures r.Ok? && r.value.Pair? && s[|s| - 1] == ')' ==> |r.value.token| < |s|
    ensures r.Ok? && r.value.Bare? ==> r.value.text == s
  {
    if s == [] then Err("IndexError")
    else if s[|s| - 1] == ')' then
      match ScanOpen(s, 0, 0)
      case None => Ok(NoToken)
      case Some(i) => var k: int := i; Ok(Pair(Py.Slice(s, -k, -1), Py.Slice(s, 0, -k - 2)))
    else
      match LastSpace(s, 0)
      case None => Ok(Bare(s))
      case Some(i) => var k: int := i; Ok(Pair(Py.Slice(s, -k, |s|), Py.Slice(s, 0, -k - 1)))
  }

  method GetEndToken(s: string) returns (r: Result<EndTok>)
    ensures r == EndToken(s)
  {
    if s == [] {
      return Err("IndexError");
    }
    if s[|s| - 1] == ')' {
      var parens := 0;
      for i := 0 to |s|
        invariant ScanOpen(s, 0, 0) == ScanOpen(s, i, parens)
      {
        var c := s[|s| - 1 - i];
        if c == ')' {
          parens := parens + 1;
        } else if c == '(' {
          parens := parens - 1;
          if parens == 0 {
            return Ok(Pair(Py.Slice(s, -i, -1), Py.Slice(s, 0, -i - 2)));
          }
        }
      }
      return Ok(NoToken);
    } else {
      for i := 0 to |s|
        invariant LastSpace(s, 0) == LastSpace(s, i)
      {
        if s[|s| - 1 - i] == ' ' {
          return Ok(Pair(Py.Slice(s, -i, |s|), Py.Slice(s, 0, -i - 1)));
        }
      }
      return Ok(Bare(s));
    }
  }

  /**
   * `a, b = get_end_token(s)`: a pair unpacks; a bare string unpacks only
   * when it has exactly two characters; `None` cannot be unpacked.
   */
  function Unpack(t: EndTok): (r: Result<(string, string)>)
    ensures r.Ok? && t.Pair? ==> r.value == (t.token, t.rest)
    ensures r.Ok? && t.Bare? ==> |t.text| == 2 && r.value == ([t.text[0]], [t.text[1]])
    ensures t.NoToken? ==> r == Err("TypeError")
  {
    match t
    case Pair(token, rest) => Ok((token, rest))
    case Bare(text) => if |text| == 2 then Ok(([text[0]], [text[1]])) else Err("ValueError")
    case NoToken => Err("TypeError")
  }

  // ---------------------------------------------------------------- parse_string

  /** The `while` loop at the head of `parse_string`: drop outer parentheses. */
  function StripParens(s: string): (r: Result<string>)
    ensures r.Ok? ==> |r.value| <= |s| && SingleGroup(r.value) == Ok(false)
    decreases |s|
  {
    var single :- SingleGroup(s);
    if single then StripParens(s[1..|s| - 1]) else Ok(s)
  }

  /**
   * An operand: `int(text)` when that succeeds, otherwise `parse_string`
   * on it. A text that would be parsed again unchanged recurses forever.
   */
  function Operand(text: string, s: string): Result<Expr>
    decreases |s|, 1
  {
    match Py.IntOfLine(text)
    case Some(n) => Ok(Num(n))
    case None => if |text| < |s| then Parse(text) else Err("RecursionError")
  }

  /** `parse_string(s)`. */
  function Parse(s: string): Result<Expr>
    decreases |s|, 2
  {
    var t :- StripParens(s);
    var tok :- EndToken(t);
    var split :- Unpack(tok);
    var rhs :- Operand(split.0, s);
    var tok2 :- EndToken(split.1);
    var split2 :- Unpack(tok2);
    if |split2.0| != 1 then Err("AssertionError")
    else
      var lhs :- Operand(split2.1, s);
      Ok(Binary(lhs, split2.0[0], rhs))
  }

  method ParseString(s: string) returns (r: Result<Expr>)
    ensures r == Parse(s)
    decreases |s|
  {
    var t := s;
    while true
      invariant |t| <= |s| && StripParens(t) == StripParens(s)
      decreases |t|
    {
      var single := IsSingleExprInParens(t);
      if single.Err? {
        return Err(single.msg);
      }
      if !single.value {
        break;
      }
      t := t[1..|t| - 1];
    }
    var tok := GetEndToken(t);
    if tok.Err? {
      return Err(tok.msg);
    }
    var split := Unpack(tok.value);
    if split.Err? {
      return Err(split.msg);
    }
    var rhs: Expr;
    var rhsText := split.value.0;
    match Py.IntOfLine(rhsText) {
      case Some(n) =>
        rhs := Num(n);
      case None =>
        if |rhsText| == |s| {
          return Err("RecursionError");
        }
        var sub := ParseString(rhsText);
        if sub.Err? {
          return Err(sub.msg);
        }
        rhs := sub.value;
    }
    var tok2 := GetEndToken(split.value.1);
    if tok2.Err? {
      return Err(tok2.msg);
    }
    var split2 := Unpack(tok2.value);
    if split2.Err? {
      return Err(split2.msg);
    }
    var op := split2.value.0;
    if |op| != 1 {
      return Err("AssertionError");
    }
    var lhs: Expr;
    var lhsText := split2.value.1;
    match Py.IntOfLine(lhsText) {
      case Some(n) =>
        lhs := Num(n);
      case None =>
        var sub := ParseString(lhsText);
        if sub.Err? {
          return Err(sub.msg);
        }
        lhs := sub.value;
    }
    return Ok(Binary(lhs, op[0], rhs));
  }

  // ---------------------------------------------------------------- evaluate

  /** `evaluate(expr)`: the operator is looked at before either operand. */
  function Evaluate(e: Expr): Result<int> {
    match e
    case Num(n) => Ok(n)
    case Binary(lhs, op, rhs) =>
      if op == '+' then
        var a :- Evaluate(lhs);
        var b :- Evaluate(rhs);
        Ok(a + b)
      else if op == '*' then
        var a :- Evaluate(lhs);
        var b :- Evaluate(rhs);
        Ok(a * b)
      else Err("Exception")
  }

  /** `evaluate_string(s)`. */
  function EvaluateString(s: string): Result<int> {
    var e :- Parse(s);
    Evaluate(e)
  }

  // ---------------------------------------------------------------- parentheses, proved

  lemma DepthAppend(a: string, b: string)
    ensures Depth(a + b) == Depth(a) + Depth(b)
    decreases |b|
  {
    if b != [] {
      assert (a + b)[..|a + b| - 1] == a + b[..|b| - 1];
      assert (a + b)[|a + b| - 1] == b[|b| - 1];
      DepthAppend(a, b[..|b| - 1]);
    } else {
      assert a + b == a;
    }
  }

  lemma BalancedAppend(a: string, b: string)
    requires Balanced(a) && Balanced(b)
    ensures Balanced(a + b)
  {
    DepthAppend(a, b);
    forall k | 0 <= k <= |a + b|
      ensures Depth((a + b)[..k]) >= 0
    {
      if k <= |a| {
        assert (a + b)[..k] == a[..k];
      } else {
        assert (a + b)[..k] == a + b[..k - |a|];
        DepthAppend(a, b[..k - |a|]);
      }
    }
  }

  lemma BalancedWrap(x: string)
    requires Balanced(x)
    ensures Balanced("(" + x + ")")
  {
    var w := "(" + x + ")";
    DepthAppend("(", x);
    DepthAppend("(" + x, ")");
    forall k | 0 <= k <= |w|
      ensures Depth(w[..k]) >= 0
    {
      if 1 <= k <= |x| + 1 {
        assert w[..k] == "(" + x[..k - 1];
        DepthAppend("(", x[..k - 1]);
      } else if k == |w| {
        assert w[..k] == w;
      }
    }
  }

  /** Text without parentheses is balanced. */
  lemma BalancedPlain(s: string)
    requires forall i :: 0 <= i < |s| ==> s[i] != '(' && s[i] != ')'
    ensures Balanced(s)
  {
    forall k | 0 <= k <= |s|
      ensures Depth(s[..k]) == 0
    {
      PlainDepth(s[..k]);
    }
    assert s[..|s|] == s;
  }

  lemma PlainDepth(s: string)
    requires forall i :: 0 <= i < |s| ==> s[i] != '(' && s[i] != ')'
    ensures Depth(s) == 0
  {
    if s != [] {
      PlainDepth(s[..|s| - 1]);
    }
  }

  /**
   * `s` opens with `(`, and the `)` at `j` is the one that matches it: the
   * counter stays positive after the `(` and comes back to zero at `j`.
   */
  predicate ClosesFirst(s: string, j: int) {
    0 < j < |s| && Depth(s[..j + 1]) == 0 && forall k :: 1 <= k <= j ==> Depth(s[..k]) > 0
  }

  lemma {:induction false} ScanCloseFrom(s: string, i: nat)
    requires 1 <= i <= |s| && s[0] == '('
    requires forall k :: 1 <= k <= i ==> Depth(s[..k]) > 0
    ensures ScanClose(s, i, Depth(s[..i])).Some? ==> ClosesFirst(s, ScanClose(s, i, Depth(s[..i])).value)
    ensures ScanClose(s, i, Depth(s[..i])).None? ==> forall k :: 1 <= k <= |s| ==> Depth(s[..k]) > 0
    decreases |s| - i
  {
    if i < |s| {
      assert s[..i + 1][..i] == s[..i];
      var d := Depth(s[..i]);
      if s[i] == ')' && d - 1 == 0 {
      } else {
        assert Depth(s[..i + 1]) > 0;
        ScanCloseFrom(s, i + 1);
      }
    } else {
      assert s[..i] == s;
    }
  }

  /**
   * `is_single_expr_in_parens(s)` holds exactly when `s` starts with `(`
   * and the `)` that matches it is the last character.
   */
  lemma SingleGroupIff(s: string)
    ensures SingleGroup(s) == Ok(true) <==> s != [] && s[0] == '(' && ClosesFirst(s, |s| - 1)
  {
    if s != [] && s[0] == '(' {
      assert Depth(s[..1]) == 1 by {
        assert s[..1][..0] == [];
      }
      ScanCloseFrom(s, 1);
      var r := ScanClose(s, 1, 1);
      assert ScanClose(s, 0, 0) == r;
      if r.Some? && r.value != |s| - 1 {
        assert Depth(s[..r.value + 1]) == 0;
      }
      if r.None? {
        assert s[..|s|] == s;
      }
    }
  }

  // ---------------------------------------------------------------- get_end_token, proved

  lemma {:induction false} LastSpaceSkip(s: string, i: nat, j: nat)
    requires i <= j <= |s|
    requires forall m :: |s| - j <= m < |s| - i ==> s[m] != ' '
    ensures LastSpace(s, i) == LastSpace(s, j)
    decreases j - i
  {
    if i < j {
      LastSpaceSkip(s, i + 1, j);
    }
  }

  /**
   * On a text not ending in `)`, `get_end_token` gives the token after the
   * last space and the text before that space.
   */
  lemma EndTokenSpace(r: string, t: string)
    requires t != [] && t[|t| - 1] != ')'
    requires forall i :: 0 <= i < |t| ==> t[i] != ' '
    ensures EndToken(r + " " + t) == Ok(Pair(t, r))
  {
    var s := r + " " + t;
    forall m | |s| - |t| <= m < |s|
      ensures s[m] != ' '
    {
      assert s[m] == t[m - (|s| - |t|)];
    }
    LastSpaceSkip(s, 0, |t|);
    assert s[|s| - 1 - |t|] == ' ';
    assert LastSpace(s, 0) == Some(|t|);
    assert s[|s| - 1] == t[|t| - 1];
    assert s[|s| - |t|..|s|] == t;
    assert s[0..|s| - |t| - 1] == r;
  }

  lemma {:induction false} ScanOpenInner(r: string, inner: string, p: nat)
    requires Balanced(inner) && p <= |inner|
    ensures
      var s := r + " (" + inner + ")";
      ScanOpen(s, |inner| - p + 1, 1 + Depth(inner[..p])) == Some(|inner| + 1)
    decreases p
  {
    var s := r + " (" + inner + ")";
    var i := |inner| - p + 1;
    if p == 0 {
      assert s[|s| - 1 - i] == '(';
    } else {
      assert s[|s| - 1 - i] == inner[p - 1];
      assert inner[..p][..p - 1] == inner[..p - 1];
      assert Depth(inner[..p]) == Depth(inner[..p - 1]) + Delta(inner[p - 1]);
      ScanOpenInner(r, inner, p - 1);
    }
  }

  /**
   * On a text ending in a parenthesised group opened by `" ("`,
   * `get_end_token` gives the inside of the group and the text before.
   */
  lemma EndTokenGroup(r: string, inner: string)
    requires Balanced(inner)
    ensures EndToken(r + " (" + inner + ")") == Ok(Pair(inner, r))
  {
    var s := r + " (" + inner + ")";
    ScanOpenInner(r, inner, |inner|);
    assert inner[..|inner|] == inner;
    assert s[|s| - 1] == ')';
    var i := |inner| + 1;
    assert ScanOpen(s, 0, 0) == Some(i);
    var k: int := i;
    assert Py.Slice(s, -k, -1) == s[|s| - i..|s| - 1] == inner;
    assert Py.Slice(s, 0, -k - 2) == s[0..|s| - i - 2] == r;
  }

  /** A group in parentheses is stripped away before parsing. */
  lemma StripGroup(x: string)
    requires Balanced(x)
    ensures StripParens("(" + x + ")") == StripParens(x)
  {
    var s := "(" + x + ")";
    GroupScan(x, []);
    assert s + [] == s;
    assert s[1..|s| - 1] == x;
  }

  lemma {:induction false} GroupScanFrom(inner: string, tail: string, p: nat)
    requires Balanced(inner) && p <= |inner|
    ensures
      var s := "(" + inner + ")" + tail;
      ScanClose(s, p + 1, 1 + Depth(inner[..p])) == Some(|inner| + 1)
    decreases |inner| - p
  {
    var s := "(" + inner + ")" + tail;
    if p < |inner| {
      assert s[p + 1] == inner[p];
      assert inner[..p + 1][..p] == inner[..p];
      assert Depth(inner[..p + 1]) == Depth(inner[..p]) + Delta(inner[p]);
      GroupScanFrom(inner, tail, p + 1);
    } else {
      assert inner[..p] == inner;
      assert s[p + 1] == ')';
    }
  }

  /** The `(` opening `s` is matched by the `)` after a balanced `inner`. */
  lemma GroupScan(inner: string, tail: string)
    requires Balanced(inner)
    ensures ScanClose("(" + inner + ")" + tail, 0, 0) == Some(|inner| + 1)
  {
    GroupScanFrom(inner, tail, 0);
    assert inner[..0] == [];
  }

  // ---------------------------------------------------------------- the expression grammar

  /** An operand as written: a number or a parenthesised chain. */
  datatype Term = Number(n: nat) | Group(inner: Chain)

  /** Operands joined by operators, read left to right. */
  datatype Chain = Single(t: Term) | More(init: Chain, op: char, last: Term)

  function TermText(t: Term): string {
    match t
    case Number(n) => Py.NatToString(n)
    case Group(c) => "(" + ChainText(c) + ")"
  }

  /** The puzzle's layout: operands and operators separated by single spaces. */
  function ChainText(c: Chain): string {
    match c
    case Single(t) => TermText(t)
    case More(init, op, last) => ChainText(init) + ([' ', op, ' '] + TermText(last))
  }

  /** The tree the puzzle's rule gives: each operator applies to everything on its left. */
  function TermTree(t: Term): Expr {
    match t
    case Number(n) => Num(n)
    case Group(c) => ChainTree(c)
  }

  function ChainTree(c: Chain): Expr {
    match c
    case Single(t) => TermTree(t)
    case More(init, op, last) => Binary(ChainTree(init), op, TermTree(last))
  }

  /** An operator character is neither a space nor a parenthesis. */
  predicate OpChar(op: char) {
    op != ' ' && op != '(' && op != ')'
  }

  /** Has an operator once redundant parentheses are taken off. */
  predicate Compound(c: Chain) {
    match c
    case More(_, _, _) => true
    case Single(t) => t.Group? && Compound(t.inner)
  }

  /** Operator characters only, and every group holds an operator. */
  predicate TermOk(t: Term) {
    match t
    case Number(_) => true
    case Group(c) => Compound(c) && ChainOk(c)
  }

  predicate ChainOk(c: Chain) {
    match c
    case Single(t) => TermOk(t)
    case More(init, op, last) => ChainOk(init) && OpChar(op) && TermOk(last)
  }

  /** The chain inside the redundant parentheses. */
  function Unwrap(c: Chain): (u: Chain)
    requires Compound(c)
    ensures u.More?
  {
    match c
    case More(_, _, _) => c
    case Single(t) => Unwrap(t.inner)
  }

  /** The first operand of a chain. */
  function Head(c: Chain): Term {
    match c
    case Single(t) => t
    case More(init, _, _) => Head(init)
  }

  /** What follows the first operand. */
  function Tail(c: Chain): string {
    match c
    case Single(_) => ""
    case More(init, op, last) => Tail(init) + ([' ', op, ' '] + TermText(last))
  }

  // ---------------------------------------------------------------- the grammar's text

  lemma NumberText(n: nat)
    ensures Py.IntOfLine(Py.NatToString(n)) == Some(n)
    ensures forall i :: 0 <= i < |Py.NatToString(n)| ==> Py.IsDigit(Py.NatToString(n)[i])
  {
    var s := Py.NatToString(n);
    Py.StripUnchanged(s);
    Py.ParseNatToString(n);
  }

  lemma HeadTail(c: Chain)
    ensures ChainText(c) == TermText(Head(c)) + Tail(c)
  {
    match c
    case Single(t) =>
    case More(init, op, last) =>
      HeadTail(init);
  }

  /** Text of a well-formed operand: balanced, and it begins and ends with a digit or a parenthesis. */
  lemma TermShape(t: Term)
    requires TermOk(t)
    ensures var s := TermText(t);
      s != [] && Balanced(s)
      && (Py.IsDigit(s[0]) || s[0] == '(') && (Py.IsDigit(s[|s| - 1]) || s[|s| - 1] == ')')
  {
    match t
    case Number(n) =>
      var s := Py.NatToString(n);
      NumberText(n);
      BalancedPlain(s);
    case Group(c) =>
      ChainShape(c);
      BalancedWrap(ChainText(c));
  }

  lemma ChainShape(c: Chain)
    requires ChainOk(c)
    ensures var s := ChainText(c);
      s != [] && Balanced(s)
      && (Py.IsDigit(s[0]) || s[0] == '(') && (Py.IsDigit(s[|s| - 1]) || s[|s| - 1] == ')')
  {
    match c
    case Single(t) =>
      TermShape(t);
    case More(init, op, last) =>
      ChainShape(init);
      TermShape(last);
      ShapeJoin(ChainText(init), op, TermText(last));
  }

  /** Two balanced operands joined by a spaced operator keep the shape. */
  lemma ShapeJoin(a: string, op: char, b: string)
    requires a != [] && Balanced(a) && (Py.IsDigit(a[0]) || a[0] == '(')
    requires b != [] && Balanced(b) && (Py.IsDigit(b[|b| - 1]) || b[|b| - 1] == ')')
    requires OpChar(op)
    ensures var s := a + ([' ', op, ' '] + b);
      Balanced(s) && s[0] == a[0] && s[|s| - 1] == b[|b| - 1]
  {
    var mid := " " + [op] + " ";
    BalancedPlain(mid);
    BalancedAppend(a, mid);
    BalancedAppend(a + mid, b);
    assert a + ([' ', op, ' '] + b) == (a + mid) + b;
  }

  /** `int()` refuses the text of a compound chain. */
  lemma CompoundNotInt(c: Chain)
    requires ChainOk(c) && Compound(c)
    ensures Py.IntOfLine(ChainText(c)) == None
  {
    var s := ChainText(c);
    ChainShape(c);
    match c
    case Single(t) =>
      NotInt(s, 0);
    case More(init, op, last) =>
      var k := |ChainText(init)|;
      assert s[k] == ' ';
      NotInt(s, k);
  }

  /** `int()` refuses a text that has a non-digit inside and no sign or whitespace around it. */
  lemma NotInt(s: string, k: nat)
    requires k < |s| && !Py.IsDigit(s[k])
    requires Py.IsDigit(s[0]) || s[0] == '('
    requires Py.IsDigit(s[|s| - 1]) || s[|s| - 1] == ')'
    ensures Py.IntOfLine(s) == None
  {
    Py.StripUnchanged(s);
  }

  /** The text of a compound chain is not a single group. */
  lemma NotSingle(u: Chain)
    requires ChainOk(u) && u.More?
    ensures SingleGroup(ChainText(u)) == Ok(false)
  {
    var s := ChainText(u);
    HeadTail(u);
    ChainShape(u);
    var h := Head(u);
    HeadOk(u);
    if h.Group? {
      ChainShape(h.inner);
      GroupScan(ChainText(h.inner), Tail(u));
      assert |Tail(u)| > 0;
    }
  }

  lemma HeadOk(c: Chain)
    requires ChainOk(c)
    ensures TermOk(Head(c))
  {
    match c
    case Single(t) =>
    case More(init, _, _) =>
      HeadOk(init);
  }

  /** Redundant parentheses around a chain are stripped, down to the chain inside. */
  lemma StripChain(c: Chain)
    requires ChainOk(c) && Compound(c)
    ensures StripParens(ChainText(c)) == Ok(ChainText(Unwrap(c)))
    ensures ChainTree(Unwrap(c)) == ChainTree(c) && ChainOk(Unwrap(c))
  {
    match c
    case More(_, _, _) =>
      NotSingle(c);
    case Single(t) =>
      ChainShape(t.inner);
      StripGroup(ChainText(t.inner));
      StripChain(t.inner);
  }

  /** The token `get_end_token` takes off the end of a chain: the last operand without its parentheses. */
  function LastToken(t: Term): string {
    match t
    case Number(n) => Py.NatToString(n)
    case Group(c) => ChainText(c)
  }

  lemma EndTokenLast(u: Chain)
    requires ChainOk(u) && u.More?
    ensures EndToken(ChainText(u)) == Ok(Pair(LastToken(u.last), ChainText(u.init) + " " + [u.op]))
  {
    var left := ChainText(u.init) + " " + [u.op];
    match u.last
    case Number(n) =>
      TextLastNumber(u, n);
      EndTokenNumber(left, n);
    case Group(g) =>
      TextLastGroup(u, g);
      EndTokenChainGroup(left, g);
  }

  lemma TextLastNumber(u: Chain, n: nat)
    requires u.More? && u.last == Number(n)
    ensures ChainText(u) == ChainText(u.init) + " " + [u.op] + " " + Py.NatToString(n)
  {
  }

  lemma TextLastGroup(u: Chain, g: Chain)
    requires u.More? && u.last == Group(g)
    ensures ChainText(u) == ChainText(u.init) + " " + [u.op] + " (" + ChainText(g) + ")"
  {
  }

  lemma EndTokenNumber(left: string, n: nat)
    ensures EndToken(left + " " + Py.NatToString(n)) == Ok(Pair(Py.NatToString(n), left))
  {
    NumberText(n);
    EndTokenSpace(left, Py.NatToString(n));
  }

  lemma EndTokenChainGroup(left: string, g: Chain)
    requires ChainOk(g)
    ensures EndToken(left + " (" + ChainText(g) + ")") == Ok(Pair(ChainText(g), left))
  {
    ChainShape(g);
    EndTokenGroup(left, ChainText(g));
  }

  lemma EndTokenOp(u: Chain)
    requires ChainOk(u) && u.More?
    ensures EndToken(ChainText(u.init) + " " + [u.op]) == Ok(Pair([u.op], ChainText(u.init)))
  {
    EndTokenSpace(ChainText(u.init), [u.op]);
  }

  /** The steps of `parse_string` on a text whose tokens are known. */
  lemma ParseSteps(s: string, t: string, right: string, left: string, op: char, lhsText: string, lhs: Expr, rhs: Expr)
    requires StripParens(s) == Ok(t) && EndToken(t) == Ok(Pair(right, left))
    requires Operand(right, s) == Ok(rhs)
    requires EndToken(left) == Ok(Pair([op], lhsText))
    requires Operand(lhsText, s) == Ok(lhs)
    ensures Parse(s) == Ok(Binary(lhs, op, rhs))
  {
  }

  /** The right operand: a number, or a group parsed by the recursive call. */
  lemma OperandLast(u: Chain, s: string)
    requires ChainOk(u) && u.More? && |ChainText(u)| <= |s|
    requires u.last.Group? ==> Parse(ChainText(u.last.inner)) == Ok(ChainTree(u.last.inner))
    ensures Operand(LastToken(u.last), s) == Ok(TermTree(u.last))
  {
    match u.last
    case Number(n) =>
      NumberText(n);
    case Group(g) =>
      CompoundNotInt(g);
      TextLastGroup(u, g);
  }

  lemma OperandParsed(text: string, s: string, e: Expr)
    requires Py.IntOfLine(text) == None && |text| < |s| && Parse(text) == Ok(e)
    ensures Operand(text, s) == Ok(e)
  {
  }

  /** A well-formed chain other than a bare number has an operator. */
  lemma NotNumberCompound(c: Chain)
    requires ChainOk(c) && !(c.Single? && c.t.Number?)
    ensures Compound(c)
  {
    match c
    case More(_, _, _) =>
    case Single(t) =>
  }

  lemma InitShorter(u: Chain)
    requires u.More?
    ensures |ChainText(u.init)| < |ChainText(u)|
  {
  }

  /** The left operand: a number, or a chain parsed by the recursive call. */
  lemma OperandInit(u: Chain, s: string)
    requires ChainOk(u) && u.More? && |ChainText(u)| <= |s|
    requires !(u.init.Single? && u.init.t.Number?) ==> Parse(ChainText(u.init)) == Ok(ChainTree(u.init))
    ensures Operand(ChainText(u.init), s) == Ok(ChainTree(u.init))
  {
    if u.init.Single? && u.init.t.Number? {
      NumberText(u.init.t.n);
    } else {
      NotNumberCompound(u.init);
      CompoundNotInt(u.init);
      InitShorter(u);
      OperandParsed(ChainText(u.init), s, ChainTree(u.init));
    }
  }

  /**
   * `parse_string` reads every well-formed expression of the puzzle as the
   * tree in which operators have equal precedence and associate to the
   * left, whatever redundant parentheses surround it.
   */
  lemma {:induction false} ParseChain(c: Chain)
    requires ChainOk(c) && Compound(c)
    ensures Parse(ChainText(c)) == Ok(ChainTree(c))
    decreases |ChainText(c)|
  {
    var s := ChainText(c);
    StripChain(c);
    var u := Unwrap(c);
    EndTokenLast(u);
    EndTokenOp(u);
    if u.last.Group? {
      TextLastGroup(u, u.last.inner);
      ParseChain(u.last.inner);
    }
    OperandLast(u, s);
    if !(u.init.Single? && u.init.t.Number?) {
      NotNumberCompound(u.init);
      InitShorter(u);
      ParseChain(u.init);
    }
    OperandInit(u, s);
    ParseSteps(s, ChainText(u), LastToken(u.last), ChainText(u.init) + " " + [u.op], u.op, ChainText(u.init),
      ChainTree(u.init), TermTree(u.last));
  }

  // ---------------------------------------------------------------- evaluate, proved

  /** Only `+` and `*` appear in the tree. */
  predicate ArithOnly(e: Expr) {
    match e
    case Num(_) => true
    case Binary(lhs, op, rhs) => (op == '+' || op == '*') && ArithOnly(lhs) && ArithOnly(rhs)
  }

  /** `evaluate` raises exactly when some operator is neither `+` nor `*`. */
  lemma {:induction false} EvaluateFails(e: Expr)
    ensures Evaluate(e).Err? <==> !ArithOnly(e)
    ensures Evaluate(e).Err? ==> Evaluate(e).msg == "Exception"
  {
    match e
    case Num(_) =>
    case Binary(lhs, op, rhs) =>
      EvaluateFails(lhs);
      EvaluateFails(rhs);
  }

  /** One step of the puzzle's rule. */
  function ApplyOp(acc: int, op: char, v: int): int {
    if op == '+' then acc + v else acc * v
  }

  /** Fold the operations into the running value, from the left. */
  function FoldOps(acc: int, ops: seq<(char, int)>): int
    decreases |ops|
  {
    if ops == [] then acc else FoldOps(ApplyOp(acc, ops[0].0, ops[0].1), ops[1..])
  }

  lemma {:induction false} FoldOpsSnoc(acc: int, ops: seq<(char, int)>, x: (char, int))
    ensures FoldOps(acc, ops + [x]) == ApplyOp(FoldOps(acc, ops), x.0, x.1)
    decreases |ops|
  {
    if ops == [] {
      assert ([] + [x])[1..] == [];
    } else {
      assert (ops + [x])[1..] == ops[1..] + [x];
      FoldOpsSnoc(ApplyOp(acc, ops[0].0, ops[0].1), ops[1..], x);
    }
  }

  /** The value of an operand under the puzzle's rule. */
  function TermValue(t: Term): int
    decreases t, 2
  {
    match t
    case Number(n) => n
    case Group(c) => ChainValue(c)
  }

  /** The first operand's value and the operations after it, in reading order. */
  function Flat(c: Chain): (int, seq<(char, int)>)
    decreases c, 0
  {
    match c
    case Single(t) => (TermValue(t), [])
    case More(init, op, last) =>
      var f := Flat(init);
      (f.0, f.1 + [(op, TermValue(last))])
  }

  /** Evaluate a chain left to right, with no precedence between operators. */
  function ChainValue(c: Chain): int
    decreases c, 1
  {
    var f := Flat(c);
    FoldOps(f.0, f.1)
  }

  predicate ArithTerm(t: Term) {
    match t
    case Number(_) => true
    case Group(c) => ArithChain(c)
  }

  predicate ArithChain(c: Chain) {
    match c
    case Single(t) => ArithTerm(t)
    case More(init, op, last) => ArithChain(init) && (op == '+' || op == '*') && ArithTerm(last)
  }

  lemma {:induction false} EvaluateTerm(t: Term)
    requires ArithTerm(t)
    ensures Evaluate(TermTree(t)) == Ok(TermValue(t))
    decreases t, 1
  {
    match t
    case Number(_) =>
    case Group(c) =>
      EvaluateLeftToRight(c);
  }

  /** Evaluating the parsed tree applies the operators one by one from the left. */
  lemma {:induction false} EvaluateLeftToRight(c: Chain)
    requires ArithChain(c)
    ensures Evaluate(ChainTree(c)) == Ok(ChainValue(c))
    decreases c, 0
  {
    match c
    case Single(t) =>
      EvaluateTerm(t);
    case More(init, op, last) =>
      EvaluateLeftToRight(init);
      EvaluateTerm(last);
      var f := Flat(init);
      FoldOpsSnoc(f.0, f.1, (op, TermValue(last)));
  }

  /** `evaluate_string` on a well-formed expression gives its left-to-right value. */
  lemma EvaluateText(c: Chain)
    requires ChainOk(c) && Compound(c) && ArithChain(c)
    ensures EvaluateString(ChainText(c)) == Ok(ChainValue(c))
  {
    ParseChain(c);
    EvaluateLeftToRight(c);
  }
}
