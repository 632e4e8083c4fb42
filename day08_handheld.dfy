/**
 * Day 8 (08/08.py): a boot-code interpreter with `acc`, `jmp` and `nop`,
 * loop detection by remembering every program counter already executed,
 * and the search for the one `jmp`/`nop` whose swap lets the program end.
 *
 * The program counter is an unbounded integer, and `code[pc]` follows
 * Python: a pc in [-len, 0) counts from the end, anything outside
 * [-len, len) raises IndexError.
 */
module Handheld {
  import opened Base
  import Py

  /** `Instruction(opcode, argument)`. */
  datatype Instruction = Instruction(opcode: string, argument: int)

  // ---------------------------------------------------------------- parsing

  /** `parse_line`: the first two whitespace-separated words are the opcode and the argument. */
  function ParseLine(line: string): Result<Instruction> {
    var words := Py.SplitWhitespace(Py.RStrip(line));
    if |words| < 2 then Err("IndexError")
    else match Py.ParseInt(words[1])
      case None => Err("ValueError")
      case Some(n) => Ok(Instruction(words[0], n))
  }

  /** An instruction written the way the puzzle input writes it: "jmp -3". */
  function Render(ins: Instruction): string {
    ins.opcode + " " + Py.SignedToString(ins.argument)
  }

  /** Parsing a rendered instruction gives it back (the opcode is a single word). */
  lemma ParseRender(ins: Instruction)
    requires ins.opcode != [] && Py.NoSpace(ins.opcode)
    ensures ParseLine(Render(ins)) == Ok(ins)
  {
    var line := Render(ins);
    var arg := Py.SignedToString(ins.argument);
    assert Py.RStrip(line) == line by {
      assert line[|line| - 1] == arg[|arg| - 1];
    }
    Py.SplitWhitespaceTwo(ins.opcode, arg);
    Py.ParseSignedToString(ins.argument);
  }

  /** `parse_input`: every line parsed, the first failure raising. */
  function ParseInput(lines: seq<string>): Result<seq<Instruction>> {
    MapResult(ParseLine, lines)
  }

  // ---------------------------------------------------------------- one step

  /** The mutable part of a `Program`. */
  datatype State = State(acc: int, pc: int)

  /** `code[pc]` accepts `pc` when it lies in [-len, len). */
  predicate Accepts(n: nat, pc: int) {
    -(n as int) <= pc < n
  }

  /** The program counters `code[pc]` accepts. */
  function Indices(n: nat): set<int> {
    set pc: int | -(n as int) <= pc < n && Accepts(n, pc)
  }

  /** There are 2·len of them: negative ones count from the end. */
  lemma {:induction false} IndicesSize(n: nat)
    ensures |Indices(n)| == 2 * n
  {
    if n > 0 {
      IndicesSize(n - 1);
      assert Indices(n) == Indices(n - 1) + {-(n as int), n - 1};
    }
  }

  /** `run_next_instruction` on values: the new state, or the exception it raises. */
  function Step(code: seq<Instruction>, s: State): Result<State> {
    if !(-|code| <= s.pc < |code|) then Err("IndexError")
    else
      var ins := code[Py.PyIndex(s.pc, |code|)];
      if ins.opcode == "acc" then Ok(State(s.acc + ins.argument, s.pc + 1))
      else if ins.opcode == "jmp" then Ok(State(s.acc, s.pc + ins.argument))
      else if ins.opcode == "nop" then Ok(State(s.acc, s.pc + 1))
      else Err("invalid opcode")
  }

  /** Where a step goes never depends on the accumulator. */
  lemma StepPcOnly(code: seq<Instruction>, s: State, acc: int)
    ensures Step(code, State(acc, s.pc)).Ok? == Step(code, s).Ok?
    ensures Step(code, s).Ok? ==> Step(code, State(acc, s.pc)).value.pc == Step(code, s).value.pc
  {
  }

  /** Only `acc` changes the accumulator, and it leaves the pc one further on;
   * only `jmp` moves the pc by anything other than one. */
  lemma StepEffect(code: seq<Instruction>, s: State)
    requires Step(code, s).Ok?
    ensures var t := Step(code, s).value;
            var ins := code[Py.PyIndex(s.pc, |code|)];
            (t.acc != s.acc ==> ins.opcode == "acc" && t.pc == s.pc + 1)
            && (t.pc != s.pc + 1 ==> ins.opcode == "jmp" && t.acc == s.acc)
  {
  }

  /** A step succeeds exactly at a pc `code[pc]` accepts holding one of the three opcodes. */
  lemma StepOk(code: seq<Instruction>, s: State)
    ensures Step(code, s).Ok? <==> s.pc in Indices(|code|) && code[Py.PyIndex(s.pc, |code|)].opcode in {"acc", "jmp", "nop"}
  {
  }

  /** The state after `k` steps from `s`, or the exception raised on the way. */
  function Trace(code: seq<Instruction>, s: State, k: nat): Result<State>
    decreases k
  {
    if k == 0 then Ok(s)
    else match Step(code, s)
      case Err(m) => Err(m)
      case Ok(t) => Trace(code, t, k - 1)
  }

  /** Taking one more step at the end of a trace. */
  lemma {:induction false} TraceSnoc(code: seq<Instruction>, s: State, k: nat)
    ensures Trace(code, s, k + 1) == match Trace(code, s, k)
                                      case Err(m) => Err(m)
                                      case Ok(t) => Step(code, t)
    decreases k
  {
    if k > 0 {
      match Step(code, s)
      case Err(m) =>
      case Ok(t) => TraceSnoc(code, t, k - 1);
    }
  }

  // ---------------------------------------------------------------- running to a verdict

  datatype Outcome = Loops | Halts | Crashes(msg: string)

  /** The verdict of `check_for_infinite_loop`, the state it leaves the program in, and the number of
   * instructions it executed. */
  datatype RunResult = RunResult(outcome: Outcome, final: State, steps: nat)

  /** `check_for_infinite_loop` from state `s` with the pcs in `seen` already executed. */
  function Run(code: seq<Instruction>, s: State, seen: set<int>): RunResult
    requires seen <= Indices(|code|)
    decreases Indices(|code|) - seen
  {
    if s.pc in seen then RunResult(Loops, s, 0)
    else if s.pc == |code| then RunResult(Halts, s, 0)
    else match Step(code, s)
      case Err(m) => RunResult(Crashes(m), s, 0)
      case Ok(t) =>
        var r := Run(code, t, seen + {s.pc});
        RunResult(r.outcome, r.final, r.steps + 1)
  }

  /** The `i`-th state of the trace from `s` exists and has pc `p`. */
  predicate AtPc(code: seq<Instruction>, s: State, i: nat, p: int) {
    Trace(code, s, i).Ok? && Trace(code, s, i).value.pc == p
  }

  /** The trace from `s` is the trace from the state after its first step, one step later. */
  lemma TraceShift(code: seq<Instruction>, s: State, t: State, i: nat)
    requires Step(code, s) == Ok(t)
    ensures Trace(code, s, i + 1) == Trace(code, t, i)
  {
  }

  /** A run that executes anything starts with one step from an unseen, accepted pc. */
  lemma RunCons(code: seq<Instruction>, s: State, seen: set<int>)
    requires seen <= Indices(|code|) && Run(code, s, seen).steps > 0
    ensures s.pc !in seen && s.pc != |code| && Step(code, s).Ok? && s.pc in Indices(|code|)
    ensures Run(code, s, seen).steps == Run(code, Step(code, s).value, seen + {s.pc}).steps + 1
  {
  }

  /** A run ends on the state `steps` instructions on, and executes at most one instruction per unseen pc. */
  lemma {:induction false} RunEnds(code: seq<Instruction>, s: State, seen: set<int>)
    requires seen <= Indices(|code|)
    ensures Trace(code, s, Run(code, s, seen).steps) == Ok(Run(code, s, seen).final)
    ensures Run(code, s, seen).steps <= |Indices(|code|) - seen|
    decreases Indices(|code|) - seen
  {
    if s.pc !in seen && s.pc != |code| && Step(code, s).Ok? {
      var t := Step(code, s).value;
      var seen' := seen + {s.pc};
      RunEnds(code, t, seen');
      TraceShift(code, s, t, Run(code, t, seen').steps);
      assert Indices(|code|) - seen == (Indices(|code|) - seen') + {s.pc};
    }
  }

  /** Every instruction a run executes is at a pc `code[pc]` accepts and that was not yet seen. */
  lemma {:induction false} RunVisits(code: seq<Instruction>, s: State, seen: set<int>, i: nat)
    requires seen <= Indices(|code|) && i < Run(code, s, seen).steps
    ensures Trace(code, s, i).Ok? && Trace(code, s, i).value.pc in Indices(|code|) && Trace(code, s, i).value.pc !in seen
    decreases Indices(|code|) - seen
  {
    RunCons(code, s, seen);
    var t := Step(code, s).value;
    var seen' := seen + {s.pc};
    if i > 0 {
      RunVisits(code, t, seen', i - 1);
      TraceShift(code, s, t, i - 1);
    } else {
      assert -|code| <= s.pc < |code|;
    }
  }

  /** A run executes no pc twice. */
  lemma {:induction false} RunDistinct(code: seq<Instruction>, s: State, seen: set<int>, i: nat, j: nat)
    requires seen <= Indices(|code|) && i < j < Run(code, s, seen).steps
    ensures Trace(code, s, i).Ok? && Trace(code, s, j).Ok? && Trace(code, s, i).value.pc != Trace(code, s, j).value.pc
    decreases Indices(|code|) - seen
  {
    RunCons(code, s, seen);
    var t := Step(code, s).value;
    var seen' := seen + {s.pc};
    RunVisits(code, t, seen', j - 1);
    TraceShift(code, s, t, j - 1);
    var later := Trace(code, t, j - 1);
    assert Trace(code, s, j) == later && later.Ok? && later.value.pc !in seen';
    if i > 0 {
      RunDistinct(code, t, seen', i - 1, j - 1);
      TraceShift(code, s, t, i - 1);
      assert Trace(code, s, i) == Trace(code, t, i - 1);
    } else {
      assert Trace(code, s, i) == Ok(s) && s.pc in seen';
    }
  }

  /** A run stops at a pc seen before or executed earlier in this run (a loop), at pc == len(code) (the
   * end), or where the next step raises. */
  lemma {:induction false} RunVerdict(code: seq<Instruction>, s: State, seen: set<int>)
    requires seen <= Indices(|code|)
    ensures var r := Run(code, s, seen);
            && (r.outcome == Loops <==> r.final.pc in seen || exists i :: 0 <= i < r.steps && AtPc(code, s, i, r.final.pc))
            && (r.outcome == Halts ==> r.final.pc == |code|)
            && (r.outcome.Crashes? ==> r.final.pc != |code| && Step(code, r.final) == Err(r.outcome.msg))
    decreases Indices(|code|) - seen
  {
    var r := Run(code, s, seen);
    if s.pc !in seen && s.pc != |code| && Step(code, s).Ok? {
      var t := Step(code, s).value;
      var seen' := seen + {s.pc};
      RunVerdict(code, t, seen');
      var r' := Run(code, t, seen');
      assert r.outcome == r'.outcome && r.final == r'.final && r.steps == r'.steps + 1;
      if r.outcome == Loops && r.final.pc !in seen {
        if r.final.pc == s.pc {
          assert AtPc(code, s, 0, r.final.pc);
        } else {
          var i :| 0 <= i < r'.steps && AtPc(code, t, i, r'.final.pc);
          TraceShift(code, s, t, i);
          assert AtPc(code, s, i + 1, r.final.pc);
        }
      }
      if r.outcome != Loops {
        forall i | 0 <= i < r.steps ensures !AtPc(code, s, i, r.final.pc) {
          if i > 0 {
            TraceShift(code, s, t, i - 1);
            assert !AtPc(code, t, i - 1, r'.final.pc);
          }
        }
      }
    }
  }

  /** From a fresh start, a run executes each accepted pc at most once: at most 2·len(code) instructions. */
  lemma RunBound(code: seq<Instruction>, s: State)
    ensures Run(code, s, {}).steps <= 2 * |code|
  {
    RunEnds(code, s, {});
    IndicesSize(|code|);
    assert Indices(|code|) - {} == Indices(|code|);
  }

  /** A run that reports a loop from a fresh start has found a pc it executed before, and every
   * instruction before that was at a distinct pc: the revisit is the first one. */
  lemma RunLoops(code: seq<Instruction>, s: State)
    requires Run(code, s, {}).outcome == Loops
    ensures var r := Run(code, s, {});
            && Trace(code, s, r.steps) == Ok(r.final)
            && (exists i :: 0 <= i < r.steps && AtPc(code, s, i, r.final.pc))
            && (forall i, j :: 0 <= i < j < r.steps ==>
                  Trace(code, s, i).Ok? && Trace(code, s, j).Ok? && Trace(code, s, i).value.pc != Trace(code, s, j).value.pc)
  {
    RunEnds(code, s, {});
    RunVerdict(code, s, {});
    forall i, j | 0 <= i < j < Run(code, s, {}).steps
      ensures Trace(code, s, i).Ok? && Trace(code, s, j).Ok? && Trace(code, s, i).value.pc != Trace(code, s, j).value.pc
    {
      RunDistinct(code, s, {}, i, j);
    }
  }

  /** A reported loop is real: the program then never reaches pc == len(code) and never raises. */
  lemma LoopsForever(code: seq<Instruction>, s: State, k: nat)
    requires Run(code, s, {}).outcome == Loops
    ensures Trace(code, s, k).Ok? && Trace(code, s, k).value.pc != |code|
  {
    RecurringPc(code, s, k);
  }

  /** Under a reported loop, every later state is at one of the pcs the run executed. */
  lemma {:induction false} RecurringPc(code: seq<Instruction>, s: State, k: nat)
    requires Run(code, s, {}).outcome == Loops
    ensures Trace(code, s, k).Ok? && Trace(code, s, k).value.pc in Indices(|code|)
    ensures exists j :: 0 <= j < Run(code, s, {}).steps && AtPc(code, s, j, Trace(code, s, k).value.pc)
  {
    var r := Run(code, s, {});
    if k < r.steps {
      RunVisits(code, s, {}, k);
      assert AtPc(code, s, k, Trace(code, s, k).value.pc);
    } else if k == r.steps {
      RunEnds(code, s, {});
      RunVerdict(code, s, {});
      var i :| 0 <= i < r.steps && AtPc(code, s, i, r.final.pc);
      RunVisits(code, s, {}, i);
    } else {
      RecurringPc(code, s, k - 1);
      var p := Trace(code, s, k - 1).value;
      var j :| 0 <= j < r.steps && AtPc(code, s, j, p.pc);
      var q := Trace(code, s, j).value;
      TraceSnoc(code, s, k - 1);
      TraceSnoc(code, s, j);
      if j + 1 < r.steps {
        RunVisits(code, s, {}, j + 1);
      } else {
        RunEnds(code, s, {});
      }
      assert Step(code, q).Ok?;
      StepPcOnly(code, q, p.acc);
      assert State(p.acc, q.pc) == p;
      assert Trace(code, s, k).value.pc == Trace(code, s, j + 1).value.pc;
      if j + 1 < r.steps {
        assert AtPc(code, s, j + 1, Trace(code, s, k).value.pc);
      } else {
        RunVerdict(code, s, {});
        var i :| 0 <= i < r.steps && AtPc(code, s, i, r.final.pc);
        RunVisits(code, s, {}, i);
      }
    }
  }

  /** A run that reports termination has reached pc == len(code) without revisiting a pc. */
  lemma RunHalts(code: seq<Instruction>, s: State)
    requires Run(code, s, {}).outcome == Halts
    ensures var r := Run(code, s, {});
            && Trace(code, s, r.steps) == Ok(r.final) && r.final.pc == |code|
            && forall i :: 0 <= i < r.steps ==> Trace(code, s, i).Ok? && Trace(code, s, i).value.pc != |code|
  {
    RunEnds(code, s, {});
    RunVerdict(code, s, {});
    forall i | 0 <= i < Run(code, s, {}).steps ensures Trace(code, s, i).Ok? && Trace(code, s, i).value.pc != |code| {
      RunVisits(code, s, {}, i);
    }
  }

  // ---------------------------------------------------------------- the Program object

  /** `Program`: the code, the accumulator and the program counter. */
  class Program {
    var code: seq<Instruction>
    var accumulator: int
    var pc: int

    constructor (code: seq<Instruction>)
      ensures this.code == code && accumulator == 0 && pc == 0
    {
      this.code := code;
      accumulator := 0;
      pc := 0;
    }

    function Current(): State
      reads this
    {
      State(accumulator, pc)
    }

    /** `run_next_instruction`: `acc` adds its argument and advances, `jmp` adds its argument to the pc,
     * `nop` advances; another opcode, or a pc outside the code, raises and changes nothing. */
    method RunNextInstruction() returns (r: Result<bool>)
      modifies this
      ensures code == old(code)
      ensures r.Ok? <==> Step(code, old(Current())).Ok?
      ensures r.Ok? ==> Current() == Step(code, old(Current())).value
      ensures r.Err? ==> Current() == old(Current()) && r.msg == Step(code, old(Current())).msg
      ensures r.Ok? ==> var ins := code[Py.PyIndex(old(pc), |code|)];
                        && (ins.opcode == "acc" ==> accumulator == old(accumulator) + ins.argument && pc == old(pc) + 1)
                        && (ins.opcode == "jmp" ==> accumulator == old(accumulator) && pc == old(pc) + ins.argument)
                        && (ins.opcode == "nop" ==> accumulator == old(accumulator) && pc == old(pc) + 1)
    {
      if !(-|code| <= pc < |code|) {
        return Err("IndexError");
      }
      var instruction := code[Py.PyIndex(pc, |code|)];
      if instruction.opcode == "acc" {
        accumulator := accumulator + instruction.argument;
        pc := pc + 1;
      } else if instruction.opcode == "jmp" {
        pc := pc + instruction.argument;
      } else if instruction.opcode == "nop" {
        pc := pc + 1;
      } else {
        return Err("invalid opcode");
      }
      r := Ok(true);
    }

    /** `check_for_infinite_loop`: True at the first pc executed twice, False at pc == len(code);
     * the program is left in the state reached. */
    method CheckForInfiniteLoop() returns (r: Result<bool>)
      modifies this
      ensures code == old(code)
      ensures var run := Run(code, old(Current()), {});
              && Current() == run.final
              && r == match run.outcome
                      case Loops => Ok(true)
                      case Halts => Ok(false)
                      case Crashes(m) => Err(m)
    {
      ghost var start := Current();
      var instructionsSeen: set<int> := {};
      while true
        invariant code == old(code) && instructionsSeen <= Indices(|code|)
        invariant Run(code, Current(), instructionsSeen).outcome == Run(code, start, {}).outcome
        invariant Run(code, Current(), instructionsSeen).final == Run(code, start, {}).final
        decreases Indices(|code|) - instructionsSeen
      {
        if pc in instructionsSeen {
          return Ok(true);
        } else if pc == |code| {
          return Ok(false);
        }
        ghost var before := Current();
        ghost var seenBefore := instructionsSeen;
        instructionsSeen := instructionsSeen + {pc};
        var e := RunNextInstruction();
        if e.Err? {
          return Err(e.msg);
        }
        assert Run(code, before, seenBefore) == var r' := Run(code, Current(), instructionsSeen);
                                                RunResult(r'.outcome, r'.final, r'.steps + 1);
      }
    }
  }

  // ---------------------------------------------------------------- repairing the code

  /** The instructions `find_corrupted_instruction` tries to swap. */
  predicate Swappable(ins: Instruction) {
    ins.opcode == "jmp" || ins.opcode == "nop"
  }

  /** The code with instruction `i` swapped between `jmp` and `nop`, argument kept. */
  function Flip(code: seq<Instruction>, i: nat): (r: seq<Instruction>)
    requires i < |code| && Swappable(code[i])
    ensures |r| == |code| && Swappable(r[i]) && r[i].argument == code[i].argument && r[i].opcode != code[i].opcode
    ensures forall j :: 0 <= j < |code| && j != i ==> r[j] == code[j]
  {
    code[i := Instruction(if code[i].opcode == "jmp" then "nop" else "jmp", code[i].argument)]
  }

  /** Swapping twice restores the code. */
  lemma FlipFlip(code: seq<Instruction>, i: nat)
    requires i < |code| && Swappable(code[i])
    ensures Flip(Flip(code, i), i) == code
  {
  }

  /** The search from candidate `i` on: the first swap whose program ends, with its accumulator. */
  function FixFrom(code: seq<Instruction>, i: nat): Result<Option<(nat, int)>>
    requires i <= |code|
    decreases |code| - i
  {
    if i == |code| then Ok(None)
    else if !Swappable(code[i]) then FixFrom(code, i + 1)
    else
      var run := Run(Flip(code, i), State(0, 0), {});
      match run.outcome
      case Crashes(m) => Err(m)
      case Halts => Ok(Some((i, run.final.acc)))
      case Loops => FixFrom(code, i + 1)
  }

  /** The run of the program with instruction `i` swapped, from a fresh `Program`. */
  function Repaired(code: seq<Instruction>, i: nat): RunResult
    requires i < |code| && Swappable(code[i])
  {
    Run(Flip(code, i), State(0, 0), {})
  }

  /** A fix (i, acc) swaps a `jmp`/`nop` at i whose program ends with accumulator acc, and every earlier
   * swap loops. */
  lemma {:induction false} FixFound(code: seq<Instruction>, from: nat, i: nat, acc: int)
    requires from <= |code| && FixFrom(code, from) == Ok(Some((i, acc)))
    ensures from <= i < |code| && Swappable(code[i])
    ensures Repaired(code, i).outcome == Halts && Repaired(code, i).final.acc == acc
    ensures forall j :: from <= j < i && Swappable(code[j]) ==> Repaired(code, j).outcome == Loops
    decreases |code| - from
  {
    if Swappable(code[from]) && Repaired(code, from).outcome == Halts {
    } else {
      FixFound(code, from + 1, i, acc);
    }
  }

  /** No fix is reported exactly when every swap from `from` on loops. */
  lemma {:induction false} FixNone(code: seq<Instruction>, from: nat)
    requires from <= |code|
    ensures FixFrom(code, from) == Ok(None) <==>
            forall j :: from <= j < |code| && Swappable(code[j]) ==> Repaired(code, j).outcome == Loops
    decreases |code| - from
  {
    if from < |code| {
      FixNone(code, from + 1);
    }
  }

  /** An exception from a swapped program propagates out of the search. */
  lemma {:induction false} FixCrash(code: seq<Instruction>, from: nat, m: string)
    requires from <= |code| && FixFrom(code, from) == Err(m)
    ensures exists j :: from <= j < |code| && Swappable(code[j]) && Repaired(code, j).outcome == Crashes(m)
    decreases |code| - from
  {
    if Swappable(code[from]) && Repaired(code, from).outcome.Crashes? {
    } else {
      FixCrash(code, from + 1, m);
    }
  }

  /** `find_corrupted_instruction`: each candidate is swapped in a copy of the code, so `codeOrig` is
   * never changed, and run on a new `Program`. */
  method FindCorruptedInstruction(codeOrig: seq<Instruction>) returns (r: Result<Option<(nat, int)>>)
    ensures r == FixFrom(codeOrig, 0)
  {
    for i := 0 to |codeOrig|
      invariant FixFrom(codeOrig, 0) == FixFrom(codeOrig, i)
    {
      if !Swappable(codeOrig[i]) {
        continue;
      }
      var code := codeOrig;
      if code[i].opcode == "jmp" {
        code := code[i := Instruction("nop", code[i].argument)];
      } else if code[i].opcode == "nop" {
        code := code[i := Instruction("jmp", code[i].argument)];
      }
      assert code == Flip(codeOrig, i);
      var program := new Program(code);
      var infinite := program.CheckForInfiniteLoop();
      if infinite.Err? {
        return Err(infinite.msg);
      }
      if !infinite.value {
        return Ok(Some((i, program.accumulator)));
      }
    }
    return Ok(None);
  }
}
