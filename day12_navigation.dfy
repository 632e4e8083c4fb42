/**
 * Day 12 (12/12.py): a ship that follows navigation actions. N, E, S and W
 * move in a fixed direction, L and R turn by multiples of 90 degrees, and F
 * moves along the current heading.
 *
 * The headings table puts east on +x and north on +y (the comment above it in
 * the source says the opposite; the table and the test trace agree with this
 * reading). A heading is the integer value of a cardinal `ActionType`:
 * 0 north, 1 east, 2 south, 3 west, clockwise.
 */
module Navigation {
  import opened Base
  import Py

  datatype ActionType = MoveNorth | MoveEast | MoveSouth | MoveWest | TurnLeft | TurnRight | MoveForward

  /** The `IntEnum` value of an action type. */
  function Ordinal(t: ActionType): (n: int)
    ensures 0 <= n <= 6
  {
    match t
    case MoveNorth => 0
    case MoveEast => 1
    case MoveSouth => 2
    case MoveWest => 3
    case TurnLeft => 4
    case TurnRight => 5
    case MoveForward => 6
  }

  /** `Action(type, value)`. */
  datatype Action = Action(kind: ActionType, value: int)

  // ---------------------------------------------------------------- parsing

  /** `str_to_action`. */
  function ActionOf(c: char): Option<ActionType> {
    match c
    case 'N' => Some(MoveNorth)
    case 'S' => Some(MoveSouth)
    case 'E' => Some(MoveEast)
    case 'W' => Some(MoveWest)
    case 'L' => Some(TurnLeft)
    case 'R' => Some(TurnRight)
    case 'F' => Some(MoveForward)
    case _ => None
  }

  function LetterOf(t: ActionType): char {
    match t
    case MoveNorth => 'N'
    case MoveSouth => 'S'
    case MoveEast => 'E'
    case MoveWest => 'W'
    case TurnLeft => 'L'
    case TurnRight => 'R'
    case MoveForward => 'F'
  }

  /** `parse_action`: the first character names the action, the rest of the stripped line is its value. */
  function ParseAction(line: string): Result<Action> {
    if line == [] then Err("IndexError")
    else match ActionOf(line[0])
      case None => Err("KeyError")
      case Some(t) =>
        var stripped := Py.RStrip(line);
        match Py.IntOfLine(Py.Slice(stripped, 1, |stripped|))
        case None => Err("ValueError")
        case Some(v) => Ok(Action(t, v))
  }

  /** `parse_input`. */
  function ParseInput(lines: seq<string>): Result<seq<Action>> {
    MapResult(ParseAction, lines)
  }

  /** An action as the puzzle input writes it: "F10", "R90". */
  function Render(a: Action): string {
    [LetterOf(a.kind)] + ValueText(a.value)
  }

  /** The text of a value as `Render` writes it. */
  function ValueText(v: int): string {
    if v < 0 then "-" + Py.NatToString(-v) else Py.NatToString(v)
  }

  /** `int()` reads a value's text back; the text has no surrounding whitespace to strip. */
  lemma ParseValueText(v: int)
    ensures Py.IntOfLine(ValueText(v)) == Some(v)
  {
    var body := ValueText(v);
    var digits := Py.NatToString(if v < 0 then -v else v);
    assert Py.IsDigit(digits[|digits| - 1]) && Py.IsDigit(digits[0]);
    assert body[|body| - 1] == digits[|digits| - 1];
    Py.StripUnchanged(body);
    if v < 0 {
      assert body[1..] == digits;
    } else {
      Py.ParseNatToString(v);
    }
  }

  /** Parsing a rendered action gives it back. */
  lemma ParseRender(a: Action)
    ensures ParseAction(Render(a)) == Ok(a)
  {
    var body := ValueText(a.value);
    ValueTextEnd(a.value);
    ParseValueText(a.value);
    ParseLetterValue(a, [LetterOf(a.kind)] + body, body);
  }

  /** A value's text is not empty and ends in a digit. */
  lemma ValueTextEnd(v: int)
    ensures ValueText(v) != [] && Py.IsDigit(ValueText(v)[|ValueText(v)| - 1])
  {
    var body := ValueText(v);
    var digits := Py.NatToString(if v < 0 then -v else v);
    assert body[|body| - 1] == digits[|digits| - 1];
  }

  lemma ParseLetterValue(a: Action, line: string, body: string)
    requires line == [LetterOf(a.kind)] + body && body != [] && Py.IsDigit(body[|body| - 1])
    requires Py.IntOfLine(body) == Some(a.value)
    ensures ParseAction(line) == Ok(a)
  {
    assert line[|line| - 1] == body[|body| - 1];
    Py.RStripUnchanged(line);
    assert Py.Slice(line, 1, |line|) == body;
    ActionOfLetter(a.kind);
  }

  /** Each action's letter names it. */
  lemma ActionOfLetter(t: ActionType)
    ensures ActionOf(LetterOf(t)) == Some(t)
  {
  }

  // ---------------------------------------------------------------- headings

  /** `headings[h]`: the unit vector of a cardinal heading; any other value raises KeyError. */
  function HeadingVector(h: int): Option<(int, int)> {
    if h == 0 then Some((0, 1))
    else if h == 1 then Some((1, 0))
    else if h == 2 then Some((0, -1))
    else if h == 3 then Some((-1, 0))
    else None
  }

  /** The cardinal action whose value is `h`. */
  function Cardinal(h: int): ActionType
    requires 0 <= h < 4
  {
    if h == 0 then MoveNorth else if h == 1 then MoveEast else if h == 2 then MoveSouth else MoveWest
  }

  /** The values of a ship; `Ship.__eq__` compares exactly these. */
  datatype ShipState = ShipState(x: int, y: int, heading: int)

  /** `move` on values. */
  function MoveBy(s: ShipState, v: (int, int), amount: int): ShipState {
    ShipState(s.x + v.0 * amount, s.y + v.1 * amount, s.heading)
  }

  /** `do_action` on values: the new ship, or the exception raised (with the ship unchanged). */
  function Apply(s: ShipState, a: Action): Result<ShipState> {
    match a.kind
    case MoveForward =>
      (match HeadingVector(s.heading)
       case None => Err("KeyError")
       case Some(v) => Ok(MoveBy(s, v, a.value)))
    case TurnLeft => Turn(s, -1, a.value)
    case TurnRight => Turn(s, 1, a.value)
    case _ => Ok(MoveBy(s, HeadingVector(Ordinal(a.kind)).value, a.value))
  }

  /** 12/12.py:62-66; `//` and `%` by the positive 90 and 4 floor in Python just as they do here. */
  function Turn(s: ShipState, direction: int, value: int): Result<ShipState> {
    if value % 90 != 0 then Err("AssertionError")
    else Ok(ShipState(s.x, s.y, (s.heading + direction * (value / 90)) % 4))
  }

  /** A turn by a multiple of 90 leaves the position alone and makes the heading a cardinal one;
   * any other value fails the assertion. */
  lemma TurnRules(s: ShipState, a: Action)
    requires a.kind == TurnLeft || a.kind == TurnRight
    ensures Apply(s, a).Ok? <==> a.value % 90 == 0
    ensures Apply(s, a).Ok? ==> var t := Apply(s, a).value;
              t.x == s.x && t.y == s.y && 0 <= t.heading < 4
              && (t.heading - s.heading) % 4 == (if a.kind == TurnRight then a.value / 90 else -(a.value / 90)) % 4
  {
  }

  /** N, E, S and W move `value` steps along their own direction and keep the heading. */
  lemma CardinalMoves(s: ShipState, a: Action)
    requires a.kind in {MoveNorth, MoveEast, MoveSouth, MoveWest}
    ensures Apply(s, a).Ok? && Apply(s, a).value.heading == s.heading
    ensures var t := Apply(s, a).value;
            match a.kind
            case MoveNorth => t.x == s.x && t.y == s.y + a.value
            case MoveEast => t.x == s.x + a.value && t.y == s.y
            case MoveSouth => t.x == s.x && t.y == s.y - a.value
            case MoveWest => t.x == s.x - a.value && t.y == s.y
            case _ => false
  {
  }

  /** F moves exactly as the cardinal action of the current heading does; a heading that is not cardinal raises. */
  lemma ForwardFollowsHeading(s: ShipState, value: int)
    ensures Apply(s, Action(MoveForward, value)).Ok? <==> 0 <= s.heading < 4
    ensures 0 <= s.heading < 4 ==> Apply(s, Action(MoveForward, value)) == Apply(s, Action(Cardinal(s.heading), value))
  {
  }

  /** Turning left and then right by the same multiple of 90 gives the ship back. */
  lemma TurnBack(s: ShipState, value: int)
    requires 0 <= s.heading < 4 && value % 90 == 0
    ensures Apply(s, Action(TurnLeft, value)).Ok?
    ensures Apply(Apply(s, Action(TurnLeft, value)).value, Action(TurnRight, value)) == Ok(s)
  {
    var k := value / 90;
    var h := (s.heading - k) % 4;
    assert h == s.heading - k - 4 * ((s.heading - k) / 4);
    assert (h + k) % 4 == s.heading by {
      assert h + k == s.heading + 4 * (-((s.heading - k) / 4));
      ModShift(s.heading, -((s.heading - k) / 4));
    }
  }

  lemma ModShift(h: int, m: int)
    requires 0 <= h < 4
    ensures (h + 4 * m) % 4 == h
  {
  }

  /** The cardinal directions run clockwise: a right turn by 90 goes N, E, S, W and back to N. */
  lemma RightTurnsClockwise(s: ShipState)
    requires 0 <= s.heading < 4
    ensures var t := Apply(s, Action(TurnRight, 90)).value;
            Cardinal(t.heading) == match Cardinal(s.heading)
                                   case MoveNorth => MoveEast
                                   case MoveEast => MoveSouth
                                   case MoveSouth => MoveWest
                                   case _ => MoveNorth
  {
  }

  // ---------------------------------------------------------------- the ship object

  class Ship {
    var x: int
    var y: int
    var heading: int

    /** `Ship(x, y, heading)`. */
    constructor (x: int, y: int, heading: int)
      ensures this.x == x && this.y == y && this.heading == heading
    {
      this.x := x;
      this.y := y;
      this.heading := heading;
    }

    /** `Ship()`: the defaults put the ship at the origin heading east. */
    constructor Start()
      ensures x == 0 && y == 0 && heading == Ordinal(MoveEast)
    {
      x := 0;
      y := 0;
      heading := Ordinal(MoveEast);
    }

    function State(): ShipState
      reads this
    {
      ShipState(x, y, heading)
    }

    /** `move`: `amount` steps along `v`; the heading is untouched. */
    method Move(v: (int, int), amount: int)
      modifies this
      ensures x == old(x) + v.0 * amount && y == old(y) + v.1 * amount && heading == old(heading)
    {
      x := x + v.0 * amount;
      y := y + v.1 * amount;
    }

    /** `do_action`: the ship becomes `Apply` of its old state; a raised error leaves it unchanged. */
    method DoAction(action: Action) returns (r: Result<()>)
      modifies this
      ensures r.Ok? <==> Apply(old(State()), action).Ok?
      ensures r.Ok? ==> State() == Apply(old(State()), action).value
      ensures r.Err? ==> State() == old(State()) && r.msg == Apply(old(State()), action).msg
    {
      if action.kind == MoveForward {
        var v := HeadingVector(heading);
        if v.None? {
          return Err("KeyError");
        }
        Move(v.value, action.value);
      } else if action.kind in [TurnLeft, TurnRight] {
        if action.value % 90 != 0 {
          return Err("AssertionError");
        }
        var direction := if action.kind == TurnRight then 1 else -1;
        var amount := action.value / 90;
        heading := heading + direction * amount;
        heading := heading % 4;
      } else {
        Move(HeadingVector(Ordinal(action.kind)).value, action.value);
      }
      r := Ok(());
    }
  }

  // ---------------------------------------------------------------- the test trace of 12/12.py:73-99

  function SampleActions(): seq<Action> {
    [Action(MoveForward, 10), Action(MoveNorth, 3), Action(MoveForward, 7), Action(TurnRight, 90), Action(MoveForward, 11)]
  }

  /** The states after each action. */
  function Trace(s: ShipState, actions: seq<Action>): (r: Result<seq<ShipState>>)
    ensures r.Ok? ==> |r.value| == |actions|
    decreases |actions|
  {
    if actions == [] then Ok([])
    else match Apply(s, actions[0])
      case Err(m) => Err(m)
      case Ok(t) =>
        match Trace(t, actions[1..])
        case Err(m) => Err(m)
        case Ok(rest) => Ok([t] + rest)
  }

  /** From `Ship()` the five sample actions pass through exactly the expected ships. */
  lemma SampleTrace(actions: seq<Action>)
    requires actions == SampleActions()
    ensures Trace(ShipState(0, 0, Ordinal(MoveEast)), actions)
            == Ok([ShipState(10, 0, 1), ShipState(10, 3, 1), ShipState(17, 3, 1), ShipState(17, 3, 2), ShipState(17, -8, 2)])
  {
    var s1, s2, s3, s4, s5 := ShipState(10, 0, 1), ShipState(10, 3, 1), ShipState(17, 3, 1), ShipState(17, 3, 2), ShipState(17, -8, 2);
    assert actions[4..][1..] == [] && actions[3..][1..] == actions[4..] && actions[2..][1..] == actions[3..];
    assert actions[1..][1..] == actions[2..] && actions[0..] == actions;
    TraceStep(s4, actions[4..], s5, []);
    var t4 := [s5] + [];
    TraceStep(s3, actions[3..], s4, t4);
    var t3 := [s4] + t4;
    TraceStep(s2, actions[2..], s3, t3);
    var t2 := [s3] + t3;
    TraceStep(s1, actions[1..], s2, t2);
    var t1 := [s2] + t2;
    TraceStep(ShipState(0, 0, 1), actions, s1, t1);
    assert [s1] + t1 == [s1, s2, s3, s4, s5];
  }

  lemma TraceStep(s: ShipState, actions: seq<Action>, t: ShipState, rest: seq<ShipState>)
    requires actions != [] && Apply(s, actions[0]) == Ok(t) && Trace(t, actions[1..]) == Ok(rest)
    ensures Trace(s, actions) == Ok([t] + rest)
  {
  }
}
