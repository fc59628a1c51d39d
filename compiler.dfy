// The code generator as the source runs it (src/Compiler.java): an object
// whose counters and variable list are updated in place while it walks the
// AST and writes LLVM IR line by line. Each method is proved to write
// exactly the lines, and leave exactly the state, that the functions of
// CompilerSpec give; the properties proved of those functions then hold of
// what `Compile` returns.
module Compilers {
  import opened Symbols
  import opened Trees
  import opened LlvmIr
  import opened CompilerSpec

  class Compiler {
    var unnamedVar: nat
    var ifIndex: nat
    var whileIndex: nat
    var forIndex: nat
    var variables: seq<string>
    /** Everything written so far, in order (the output file or stream). */
    var out: seq<Line>

    /** The counters and the variable list as one value. */
    function Snapshot(): State
      reads this
    {
      State(unnamedVar, ifIndex, whileIndex, forIndex, variables)
    }

    constructor ()
      ensures Snapshot() == Initial && out == []
    {
      unnamedVar := 0;
      ifIndex := 0;
      whileIndex := 0;
      forIndex := 0;
      variables := [];
      out := [];
    }

    /** `compile` and `Program`: the prologue, the code (child 1), the epilogue. */
    method Program(ast: Tree)
      requires Compilable(ast) && Snapshot() == Initial
      modifies this
      ensures out == old(out) + ProgramGen(ast).lines
      ensures Snapshot() == ProgramGen(ast).state
    {
      out := out + [Begin];
      Code(ast.children[1]);
      out := out + [End];
    }

    /** `Code`: each instruction dispatched on its label, then an empty line. */
    method Code(code: Tree)
      requires CodeOk(code)
      modifies this
      ensures out == old(out) + CodeGen(code, old(Snapshot())).lines
      ensures Snapshot() == CodeGen(code, old(Snapshot())).state
      decreases code, 0
    {
      ghost var s0 := Snapshot();
      ghost var all := InstructionsGen(code, 0, s0);
      var i := 0;
      while i < |code.children|
        invariant i <= |code.children|
        invariant out + InstructionsGen(code, i, Snapshot()).lines == old(out) + all.lines
        invariant InstructionsGen(code, i, Snapshot()).state == all.state
      {
        var instruction := code.children[i];
        ghost var before := Snapshot();
        ghost var written := out;
        Instruction(instruction);
        assert Snapshot() == InstructionGen(instruction, before).state;
        out := out + [Blank];
        CodeStep(code, i, before, written, out, old(out), all);
        i := i + 1;
      }
      InstructionsEnd(code, Snapshot());
      assert out + [] == out;
    }

    /** The switch in `Code`: one instruction lowered according to its label; any other label writes nothing. */
    method Instruction(instruction: Tree)
      requires StatementOk(instruction)
      modifies this
      ensures out == old(out) + InstructionGen(instruction, old(Snapshot())).lines
      ensures Snapshot() == InstructionGen(instruction, old(Snapshot())).state
      decreases instruction, 2
    {
      match KindOf(instruction) {
        case AssignInstr =>
          var _ := Assign(instruction);
        case ReadInstr =>
          Read(instruction);
        case PrintInstr =>
          Print(instruction);
        case WhileInstr =>
          While(instruction, whileIndex);
        case ForInstr =>
          For(instruction, forIndex);
        case IfInstr =>
          If(instruction, ifIndex);
        case _ =>
          assert out == old(out) + [];
      }
    }

    /** `Read`: allocate the variable if new, read an integer, store it. */
    method Read(t: Tree)
      requires |t.children| >= 1
      modifies this
      ensures out == old(out) + ReadGen(t, old(Snapshot())).lines
      ensures Snapshot() == ReadGen(t, old(Snapshot())).state
    {
      var varName := Name(t.children[0]);
      if varName !in variables {
        out := out + [Alloca(varName)];
        variables := variables + [varName];
      }
      out := out + [ReadInt(unnamedVar)];
      out := out + [Store(Reg(unnamedVar), varName)];
      unnamedVar := unnamedVar + 1;
    }

    /** `Print`: load the variable and print it. */
    method Print(t: Tree)
      requires |t.children| >= 1
      modifies this
      ensures out == old(out) + PrintGen(t, old(Snapshot())).lines
      ensures Snapshot() == PrintGen(t, old(Snapshot())).state
    {
      var varName := Name(t.children[0]);
      out := out + [Load(unnamedVar, varName)];
      out := out + [Println(unnamedVar)];
      unnamedVar := unnamedVar + 1;
    }

    /** `Assign`: allocate the variable if new, lower the value, store it; returns the variable. */
    method Assign(t: Tree) returns (varName: string)
      requires AssignOk(t)
      modifies this
      ensures varName == Name(t.children[0])
      ensures out == old(out) + AssignGen(t, old(Snapshot())).lines
      ensures Snapshot() == AssignGen(t, old(Snapshot())).state
      decreases t, 0
    {
      ghost var s0 := Snapshot();
      varName := Name(t.children[0]);
      ghost var d := Declare(varName, s0);
      if varName !in variables {
        out := out + [Alloca(varName)];
        variables := variables + [varName];
      } else {
        assert out == out + [];
      }
      ghost var v := OperandGen(t.children[1], d.state);
      var m := Operand(t.children[1]);
      Join(old(out), d.lines, v.lines);
      out := out + [Store(m, varName)];
      Then1(old(out), d.lines + v.lines, Store(m, varName));
    }

    /**
     * The pattern `Assign`, `For` and `operation` share for one operand: a
     * NUMBER is used as it is; anything else is lowered and its register taken.
     */
    method Operand(c: Tree) returns (o: Operand)
      requires OperandOk(c)
      modifies this
      ensures o == OperandGen(c, old(Snapshot())).operands[0]
      ensures out == old(out) + OperandGen(c, old(Snapshot())).lines
      ensures Snapshot() == OperandGen(c, old(Snapshot())).state
      decreases c, 2
    {
      if IsNumber(c) {
        o := Imm(c.symbol.value.n);
        assert out == out + [];
      } else {
        Operate(c);
        o := Reg(unnamedVar);
        unnamedVar := unnamedVar + 1;
      }
    }

    /** `operate`: load a variable, or lower an operator. */
    method Operate(t: Tree)
      requires Evaluable(t)
      modifies this
      ensures out == old(out) + OperateGen(t, old(Snapshot())).lines
      ensures Snapshot() == OperateGen(t, old(Snapshot())).state
      decreases t, 1
    {
      if IsVariable(t) {
        out := out + [Load(unnamedVar, Name(t))];
      } else {
        Operation(t);
      }
    }

    /**
     * `operation`: the operands (one for `not`, two otherwise) lowered in
     * order into a fixed-size buffer, then the instruction on them, whose
     * result goes to %unnamedVar.
     */
    method Operation(t: Tree)
      requires !IsVariable(t) && Evaluable(t)
      modifies this
      ensures out == old(out) + OperateGen(t, old(Snapshot())).lines
      ensures Snapshot() == OperateGen(t, old(Snapshot())).state
      decreases t, 0
    {
      ghost var s0 := Snapshot();
      var u := t.symbol.unit.value;
      var size := OperandCount(u);
      var operands := new Operand[size];
      ghost var all := OperandsGen(t, 0, s0);
      var i := 0;
      while i < size
        invariant i <= size
        invariant 0 < i ==> operands[0] == all.operands[0]
        invariant 1 < i ==> operands[1] == all.operands[1]
        invariant OperandsGen(t, i, Snapshot()).operands == all.operands[i..]
        invariant out + OperandsGen(t, i, Snapshot()).lines == old(out) + all.lines
        invariant OperandsGen(t, i, Snapshot()).state == all.state
      {
        ghost var before := Snapshot();
        ghost var written := out;
        var o := Operand(t.children[i]);
        OperandsStep(t, i, before, written, out, old(out), all, o);
        operands[i] := o;
        i := i + 1;
      }
      OperandsEnd(t, Snapshot());
      assert Snapshot() == all.state;
      assert out == old(out) + all.lines;
      var p := unnamedVar;
      var line := if u == NOT then Negate(p, operands[0]) else Op(p, OpcodeOf(u), Width(u), operands[0], operands[1]);
      assert line == LastLine(t, all);
      out := out + [line];
      Then1(old(out), all.lines, line);
      assert Snapshot() == all.state;
      OperationUnfold(t, s0, all);
    }

    /** `If`: skipped without a body; otherwise test, then-code, optional else-code. */
    method If(t: Tree, index: nat)
      requires IfOk(t)
      modifies this
      ensures out == old(out) + IfGen(t, index, old(Snapshot())).lines
      ensures Snapshot() == IfGen(t, index, old(Snapshot())).state
      decreases t, 0
    {
      if |t.children| < 2 {
        assert out == out + [];
        return;
      }
      ghost var s0 := Snapshot();
      ifIndex := ifIndex + 1;
      var withElse := |t.children| == 3;
      ghost var s1 := Snapshot();
      assert s1 == State(s0.unnamedVar, s0.ifIndex + 1, s0.whileIndex, s0.forIndex, s0.variables);
      ghost var c := OperateGen(t.children[0], s1);
      Operate(t.children[0]);
      assert out == old(out) + c.lines;
      var cond := unnamedVar;
      assert cond == c.state.unnamedVar;
      unnamedVar := unnamedVar + 1;
      var ifFalse := if withElse then Label(ElseCode, index) else Label(EndIf, index);
      out := out + [CondBr(cond, Label(IfCode, index), ifFalse)];
      out := out + [Mark(Label(IfCode, index))];
      Then2(old(out), c.lines, CondBr(cond, Label(IfCode, index), ifFalse), Mark(Label(IfCode, index)));
      ghost var test := c.lines + [CondBr(cond, Label(IfCode, index), ifFalse), Mark(Label(IfCode, index))];
      assert out == old(out) + test;
      ghost var s2 := Snapshot();
      assert s2 == WithRegister(c.state, cond + 1);
      ghost var body := CodeGen(t.children[1], s2);
      Code(t.children[1]);
      Join(old(out), test, body.lines);
      assert out == old(out) + (test + body.lines);
      out := out + [Br(Label(EndIf, index))];
      Then1(old(out), test + body.lines, Br(Label(EndIf, index)));
      ghost var thenPart := test + body.lines + [Br(Label(EndIf, index))];
      assert out == old(out) + thenPart;
      if withElse {
        out := out + [Mark(Label(ElseCode, index))];
        Then1(old(out), thenPart, Mark(Label(ElseCode, index)));
        assert out == old(out) + (thenPart + [Mark(Label(ElseCode, index))]);
        ghost var s3 := Snapshot();
        assert s3 == body.state;
        ghost var other := CodeGen(t.children[2], s3);
        Code(t.children[2]);
        Join(old(out), thenPart + [Mark(Label(ElseCode, index))], other.lines);
        assert out == old(out) + (thenPart + [Mark(Label(ElseCode, index))] + other.lines);
        out := out + [Br(Label(EndIf, index))];
        out := out + [Mark(Label(EndIf, index))];
        Then2(old(out), thenPart + [Mark(Label(ElseCode, index))] + other.lines, Br(Label(EndIf, index)), Mark(Label(EndIf, index)));
        assert out == old(out) + (thenPart + [Mark(Label(ElseCode, index))] + other.lines + [Br(Label(EndIf, index)), Mark(Label(EndIf, index))]);
        IfElseUnfold(t, index, s0, c, cond, body, other);
      } else {
        out := out + [Mark(Label(EndIf, index))];
        Then1(old(out), thenPart, Mark(Label(EndIf, index)));
        assert out == old(out) + (thenPart + [Mark(Label(EndIf, index))]);
        IfThenUnfold(t, index, s0, c, cond, body);
      }
    }

    /** `While`: skipped without a body; otherwise the test block, the body, the exit. */
    method While(t: Tree, index: nat)
      requires WhileOk(t)
      modifies this
      ensures out == old(out) + WhileGen(t, index, old(Snapshot())).lines
      ensures Snapshot() == WhileGen(t, index, old(Snapshot())).state
      decreases t, 0
    {
      if |t.children| < 2 {
        assert out == out + [];
        return;
      }
      ghost var s0 := Snapshot();
      whileIndex := whileIndex + 1;
      out := out + [Br(Label(WhileCond, index))];
      out := out + [Mark(Label(WhileCond, index))];
      ghost var head := [Br(Label(WhileCond, index)), Mark(Label(WhileCond, index))];
      Then2(old(out), [], head[0], head[1]);
      assert old(out) + [] == old(out);
      assert out == old(out) + head;
      ghost var s1 := Snapshot();
      assert s1 == State(s0.unnamedVar, s0.ifIndex, s0.whileIndex + 1, s0.forIndex, s0.variables);
      ghost var c := OperateGen(t.children[0], s1);
      Operate(t.children[0]);
      Join(old(out), head, c.lines);
      assert out == old(out) + (head + c.lines);
      var cond := unnamedVar;
      assert cond == c.state.unnamedVar;
      unnamedVar := unnamedVar + 1;
      ghost var test := head + c.lines + [CondBr(cond, Label(WhileCode, index), Label(EndWhile, index)), Mark(Label(WhileCode, index))];
      out := out + [CondBr(cond, Label(WhileCode, index), Label(EndWhile, index))];
      out := out + [Mark(Label(WhileCode, index))];
      Then2(old(out), head + c.lines, CondBr(cond, Label(WhileCode, index), Label(EndWhile, index)), Mark(Label(WhileCode, index)));
      assert out == old(out) + test;
      ghost var s2 := Snapshot();
      assert s2 == WithRegister(c.state, cond + 1);
      ghost var body := CodeGen(t.children[1], s2);
      Code(t.children[1]);
      Join(old(out), test, body.lines);
      assert out == old(out) + (test + body.lines);
      out := out + [Br(Label(WhileCond, index))];
      out := out + [Mark(Label(EndWhile, index))];
      ghost var tail := [Br(Label(WhileCond, index)), Mark(Label(EndWhile, index))];
      Then2(old(out), test + body.lines, tail[0], tail[1]);
      assert out == old(out) + (test + body.lines + tail);
      WhileUnfold(t, index, s0, c, cond, body);
    }

    /**
     * `For` over [variable, from, by, to, body]: skipped without a body;
     * otherwise the start assignment, the test against the bound, the body,
     * and the step.
     */
    method For(t: Tree, index: nat)
      requires ForOk(t)
      modifies this
      ensures out == old(out) + ForGen(t, index, old(Snapshot())).lines
      ensures Snapshot() == ForGen(t, index, old(Snapshot())).state
      decreases t, 1
    {
      if |t.children| < 5 {
        assert out == out + [];
        return;
      }
      ghost var s0 := Snapshot();
      forIndex := forIndex + 1;
      ghost var s1 := Snapshot();
      assert s1 == State(s0.unnamedVar, s0.ifIndex, s0.whileIndex, s0.forIndex + 1, s0.variables);
      ghost var init := AssignGen(t, s1);
      var varName := Assign(t);
      assert out == old(out) + init.lines;
      var i := unnamedVar;
      assert Snapshot() == init.state && i == init.state.unnamedVar;
      ghost var test := ForTestGen(t, index, init.state);
      ForTest(t, index);
      Join(old(out), init.lines, test.lines);
      assert out == old(out) + (init.lines + test.lines);
      ghost var s3 := Snapshot();
      assert s3 == test.state;
      ghost var body := CodeGen(t.children[4], s3);
      Code(t.children[4]);
      Join(old(out), init.lines + test.lines, body.lines);
      assert out == old(out) + (init.lines + test.lines + body.lines);
      ghost var s4 := Snapshot();
      assert s4 == body.state;
      ghost var tail := ForStepGen(t, index, i, s4);
      ForStep(t, index, i, varName);
      Join(old(out), init.lines + test.lines + body.lines, tail.lines);
      assert out == old(out) + (init.lines + test.lines + body.lines + tail.lines);
      ForUnfold(t, index, s0, init, test, body, tail);
    }

    /** The loop test of `For`: load the variable into register i, compare it with the bound, branch. */
    method ForTest(t: Tree, index: nat)
      requires |t.children| >= 5 && IsVariable(t.children[0]) && OperandOk(t.children[3])
      modifies this
      ensures out == old(out) + ForTestGen(t, index, old(Snapshot())).lines
      ensures Snapshot() == ForTestGen(t, index, old(Snapshot())).state
      decreases t, 0
    {
      ghost var s0 := Snapshot();
      var i := unnamedVar;
      // `operate` on the loop variable, a VARNAME, is its load into register i
      out := out + [Br(Label(ForCond, index)), Mark(Label(ForCond, index)), Load(i, Name(t.children[0]))];
      unnamedVar := unnamedVar + 1;
      assert Snapshot() == WithRegister(s0, i + 1);
      ghost var max := OperandGen(t.children[3], WithRegister(s0, i + 1));
      var m := Operand(t.children[3]);
      var cond := unnamedVar;
      unnamedVar := unnamedVar + 1;
      out := out + [Op(cond, IcmpSlt, 32, Reg(i), m), CondBr(cond, Label(ForCode, index), Label(EndFor, index)),
        Mark(Label(ForCode, index))];
      ForTestUnfold(t, index, s0, max);
      Join3(old(out), [Br(Label(ForCond, index)), Mark(Label(ForCond, index)), Load(i, Name(t.children[0]))], max.lines,
        [Op(cond, IcmpSlt, 32, Reg(i), m), CondBr(cond, Label(ForCode, index), Label(EndFor, index)), Mark(Label(ForCode, index))]);
    }

    /** The loop step of `For`: add the step to register i and store the sum back in the variable. */
    method ForStep(t: Tree, index: nat, i: nat, varName: string)
      requires |t.children| >= 5 && OperandOk(t.children[2]) && varName == Name(t.children[0])
      modifies this
      ensures out == old(out) + ForStepGen(t, index, i, old(Snapshot())).lines
      ensures Snapshot() == ForStepGen(t, index, i, old(Snapshot())).state
      decreases t, 0
    {
      ghost var s0 := Snapshot();
      ghost var stepped := OperandGen(t.children[2], s0);
      var step := Operand(t.children[2]);
      assert step == stepped.operands[0];
      var p := unnamedVar;
      assert p == stepped.state.unnamedVar;
      ghost var atStep := out;
      out := out + [Op(p, Add, 32, Reg(i), step)];
      out := out + [Store(Reg(p), varName)];
      unnamedVar := unnamedVar + 1;
      out := out + [Br(Label(ForCond, index))];
      out := out + [Mark(Label(EndFor, index))];
      ForStepUnfold(t, index, i, s0, stepped);
      StepShape(old(out), stepped.lines, [Op(p, Add, 32, Reg(i), step), Store(Reg(p), varName),
        Br(Label(ForCond, index)), Mark(Label(EndFor, index))], out);
    }
  }

  /** One pass of `Code`'s loop keeps what is still to be written in step with the whole. */
  lemma CodeStep(code: Tree, i: nat, s: State, written: seq<Line>, now: seq<Line>, start: seq<Line>, all: Gen)
    requires CodeOk(code) && i < |code.children|
    requires written + InstructionsGen(code, i, s).lines == start + all.lines
    requires InstructionsGen(code, i, s).state == all.state
    requires now == written + InstructionGen(code.children[i], s).lines + [Blank]
    ensures now + InstructionsGen(code, i + 1, InstructionGen(code.children[i], s).state).lines == start + all.lines
    ensures InstructionsGen(code, i + 1, InstructionGen(code.children[i], s).state).state == all.state
  {
    var g := InstructionGen(code.children[i], s);
    var rest := InstructionsGen(code, i + 1, g.state);
    InstructionsUnfold(code, i, s, g, rest);
    Rejoin(written, g.lines, [Blank], rest.lines);
  }

  /** One operand lowered: it is the i-th of all, and the rest continues from its state. */
  lemma OperandsStep(t: Tree, i: nat, s: State, written: seq<Line>, now: seq<Line>, start: seq<Line>, all: Operands, o: Operand)
    requires !IsVariable(t) && Evaluable(t) && i < OperandCount(t.symbol.unit.value) == |all.operands|
    requires OperandsGen(t, i, s).operands == all.operands[i..]
    requires written + OperandsGen(t, i, s).lines == start + all.lines
    requires OperandsGen(t, i, s).state == all.state
    requires now == written + OperandGen(t.children[i], s).lines
    requires o == OperandGen(t.children[i], s).operands[0]
    ensures o == all.operands[i]
    ensures var next := OperandGen(t.children[i], s).state;
      OperandsGen(t, i + 1, next).operands == all.operands[i + 1..] &&
      now + OperandsGen(t, i + 1, next).lines == start + all.lines &&
      OperandsGen(t, i + 1, next).state == all.state
  {
    var first := OperandGen(t.children[i], s);
    var rest := OperandsGen(t, i + 1, first.state);
    OperandsUnfold(t, i, s, first, rest);
    assert first.operands == [o];
    Uncons(all.operands, i, o, rest.operands);
    Join(written, first.lines, rest.lines);
  }

  /** The element at i and what follows it. */
  lemma Uncons<T>(xs: seq<T>, i: nat, x: T, rest: seq<T>)
    requires i < |xs| && xs[i..] == [x] + rest
    ensures xs[i] == x && xs[i + 1..] == rest
  {
    assert xs[i] == xs[i..][0];
    assert xs[i + 1..] == xs[i..][1..];
  }

  lemma Join<T>(o: seq<T>, a: seq<T>, b: seq<T>)
    ensures o + a + b == o + (a + b)
  {
  }

  lemma Then1<T>(o: seq<T>, a: seq<T>, x: T)
    ensures o + a + [x] == o + (a + [x])
  {
  }

  lemma Then2<T>(o: seq<T>, a: seq<T>, x: T, y: T)
    ensures o + a + [x] + [y] == o + (a + [x, y])
  {
  }

  lemma Join3<T>(o: seq<T>, a: seq<T>, b: seq<T>, c: seq<T>)
    ensures o + a + b + c == o + (a + b + c)
  {
  }

  lemma Rejoin<T>(w: seq<T>, a: seq<T>, b: seq<T>, c: seq<T>)
    ensures w + a + b + c == w + (a + b + c)
  {
  }

  lemma StepShape<T>(o: seq<T>, mid: seq<T>, tail: seq<T>, out: seq<T>)
    requires |tail| == 4
    requires out == o + mid + [tail[0]] + [tail[1]] + [tail[2]] + [tail[3]]
    ensures out == o + (mid + tail)
  {
  }
}
