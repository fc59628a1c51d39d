// Variable allocation in the code generator (src/Compiler.java:207-218,
// :420-452): a variable is allocated with `alloca` the first time it is
// assigned or read into, the list `variables` records the allocations in
// order, no variable is allocated twice, and every store goes to a
// variable allocated before it.
module CompilerVariables {
  import opened Trees
  import opened LlvmIr
  import opened CompilerSpec

  /**
   * With the variables `vars` already allocated, every line that stores to
   * a variable stores to one allocated before it, and no line allocates a
   * variable already allocated.
   */
  predicate Declared(lines: seq<Line>, vars: seq<string>)
  {
    DeclaredFrom(lines, 0, vars)
  }

  predicate DeclaredFrom(lines: seq<Line>, k: nat, vars: seq<string>)
    requires k <= |lines|
    decreases |lines| - k
  {
    k == |lines| ||
    ((lines[k].Store? ==> lines[k].name in vars) &&
     (lines[k].Alloca? ==> lines[k].name !in vars) &&
     DeclaredFrom(lines, k + 1, if lines[k].Alloca? then vars + [lines[k].name] else vars))
  }

  lemma {:induction false} DeclaredFromShift(a: seq<Line>, b: seq<Line>, k: nat, vars: seq<string>)
    requires k <= |b| && DeclaredFrom(b, k, vars)
    ensures DeclaredFrom(a + b, |a| + k, vars)
    decreases |b| - k
  {
    if k < |b| {
      assert (a + b)[|a| + k] == b[k];
      DeclaredFromShift(a, b, k + 1, if b[k].Alloca? then vars + [b[k].name] else vars);
    }
  }

  lemma {:induction false} DeclaredFromAppend(a: seq<Line>, b: seq<Line>, k: nat, vars: seq<string>)
    requires k <= |a| && DeclaredFrom(a, k, vars) && Declared(b, vars + AllocasFrom(a, k))
    ensures DeclaredFrom(a + b, k, vars)
    decreases |a| - k
  {
    if k == |a| {
      assert vars + AllocasFrom(a, k) == vars;
      DeclaredFromShift(a, b, 0, vars);
    } else {
      assert (a + b)[k] == a[k];
      var next := if a[k].Alloca? then vars + [a[k].name] else vars;
      assert next + AllocasFrom(a, k + 1) == vars + AllocasFrom(a, k);
      DeclaredFromAppend(a, b, k + 1, next);
    }
  }

  /** Two stretches of lines in a row, the second after the first's allocations. */
  lemma DeclaredAppend(a: seq<Line>, b: seq<Line>, vars: seq<string>)
    requires Declared(a, vars) && Declared(b, vars + Allocas(a))
    ensures Declared(a + b, vars)
  {
    DeclaredFromAppend(a, b, 0, vars);
  }

  lemma {:induction false} DeclaredFromDistinct(lines: seq<Line>, k: nat, vars: seq<string>)
    requires k <= |lines| && DeclaredFrom(lines, k, vars) && NoDuplicates(vars)
    ensures NoDuplicates(vars + AllocasFrom(lines, k))
    decreases |lines| - k
  {
    if k == |lines| {
      assert vars + AllocasFrom(lines, k) == vars;
    } else if lines[k].Alloca? {
      var next := vars + [lines[k].name];
      AddNew(vars, lines[k].name);
      DeclaredFromDistinct(lines, k + 1, next);
      assert next + AllocasFrom(lines, k + 1) == vars + AllocasFrom(lines, k);
    } else {
      DeclaredFromDistinct(lines, k + 1, vars);
      assert AllocasFrom(lines, k) == [] + AllocasFrom(lines, k + 1);
      assert [] + AllocasFrom(lines, k + 1) == AllocasFrom(lines, k + 1);
    }
  }

  lemma AddNew(vars: seq<string>, name: string)
    requires NoDuplicates(vars) && name !in vars
    ensures NoDuplicates(vars + [name])
  {
  }

  /** Allocating only variables not yet allocated keeps the list free of repeats. */
  lemma DeclaredDistinct(lines: seq<Line>, vars: seq<string>)
    requires Declared(lines, vars) && NoDuplicates(vars)
    ensures NoDuplicates(vars + Allocas(lines))
  {
    DeclaredFromDistinct(lines, 0, vars);
  }

  /** Lines that neither allocate nor store. */
  predicate Quiet(lines: seq<Line>)
  {
    forall i :: 0 <= i < |lines| ==> !lines[i].Alloca? && !lines[i].Store?
  }

  lemma {:induction false} QuietFrom(lines: seq<Line>, k: nat, vars: seq<string>)
    requires k <= |lines| && Quiet(lines)
    ensures DeclaredFrom(lines, k, vars) && AllocasFrom(lines, k) == []
    decreases |lines| - k
  {
    if k < |lines| {
      QuietFrom(lines, k + 1, vars);
    }
  }

  /**
   * The generator's bookkeeping over lines written from state s to state
   * s2: the stores and allocations are as Declared demands, and the list of
   * variables grows by exactly the variables allocated, in order.
   */
  predicate VarsOk(lines: seq<Line>, s: State, s2: State)
  {
    Declared(lines, s.variables) && s2.variables == s.variables + Allocas(lines)
  }

  lemma VarsAppend(a: seq<Line>, b: seq<Line>, s0: State, s1: State, s2: State)
    requires VarsOk(a, s0, s1) && VarsOk(b, s1, s2)
    ensures VarsOk(a + b, s0, s2)
  {
    DeclaredAppend(a, b, s0.variables);
    AllocasAppend(a, b);
  }

  lemma QuietVars(a: seq<Line>, s: State, s2: State)
    requires Quiet(a) && s2.variables == s.variables
    ensures VarsOk(a, s, s2)
  {
    QuietFrom(a, 0, s.variables);
  }

  /** Quiet lines around lines whose bookkeeping holds. */
  lemma Around(q1: seq<Line>, a: seq<Line>, q2: seq<Line>, s: State, s2: State)
    requires Quiet(q1) && VarsOk(a, s, s2) && Quiet(q2)
    ensures VarsOk(q1 + a + q2, s, s2)
  {
    QuietVars(q1, s, s);
    QuietVars(q2, s2, s2);
    VarsAppend(q1, a, s, s, s2);
    VarsAppend(q1 + a, q2, s, s2, s2);
  }

  // Expressions neither allocate nor store.

  lemma {:induction false} OperateQuiet(t: Tree, s: State)
    requires Evaluable(t)
    ensures Quiet(OperateGen(t, s).lines)
    decreases t, 2, 0
  {
    if !IsVariable(t) {
      OperandsQuiet(t, 0, s);
    }
  }

  lemma {:induction false} OperandsQuiet(t: Tree, i: nat, s: State)
    requires !IsVariable(t) && Evaluable(t) && i <= OperandCount(t.symbol.unit.value)
    ensures Quiet(OperandsGen(t, i, s).lines)
    decreases t, 1, OperandCount(t.symbol.unit.value) - i
  {
    if i < OperandCount(t.symbol.unit.value) {
      var first := OperandGen(t.children[i], s);
      OperandQuiet(t.children[i], s);
      OperandsQuiet(t, i + 1, first.state);
    }
  }

  lemma {:induction false} OperandQuiet(c: Tree, s: State)
    requires OperandOk(c)
    ensures Quiet(OperandGen(c, s).lines)
    decreases c, 3, 0
  {
    if !IsNumber(c) {
      OperateQuiet(c, s);
    }
  }

  // Statements.

  /** A variable is allocated at most once: only when it is not yet in the list. */
  lemma DeclareVars(name: string, s: State)
    ensures VarsOk(Declare(name, s).lines, s, Declare(name, s).state)
  {
    if name !in s.variables {
      assert DeclaredFrom([Alloca(name)], 1, s.variables + [name]);
    }
  }

  /** A store into a variable already allocated. */
  lemma StoreVars(line: Line, s: State)
    requires line.Store? && line.name in s.variables
    ensures VarsOk([line], s, s)
  {
    assert DeclaredFrom([line], 1, s.variables);
    assert AllocasFrom([line], 1) == [];
  }

  lemma AssignVars(t: Tree, s: State)
    requires AssignOk(t)
    ensures VarsOk(AssignGen(t, s).lines, s, AssignGen(t, s).state)
    ensures Name(t.children[0]) in AssignGen(t, s).state.variables
  {
    var name := Name(t.children[0]);
    var d := Declare(name, s);
    var v := OperandGen(t.children[1], d.state);
    DeclareVars(name, s);
    OperandQuiet(t.children[1], d.state);
    QuietVars(v.lines, d.state, v.state);
    StoreVars(Store(v.operands[0], name), v.state);
    VarsAppend(d.lines, v.lines, s, d.state, v.state);
    VarsAppend(d.lines + v.lines, [Store(v.operands[0], name)], s, v.state, v.state);
  }

  lemma ReadVars(t: Tree, s: State)
    requires |t.children| >= 1
    ensures VarsOk(ReadGen(t, s).lines, s, ReadGen(t, s).state)
  {
    var name := Name(t.children[0]);
    var d := Declare(name, s);
    var r := d.state.unnamedVar;
    var s2 := WithRegister(d.state, r + 1);
    DeclareVars(name, s);
    QuietVars([ReadInt(r)], d.state, s2);
    StoreVars(Store(Reg(r), name), s2);
    VarsAppend([ReadInt(r)], [Store(Reg(r), name)], d.state, s2, s2);
    assert [ReadInt(r)] + [Store(Reg(r), name)] == [ReadInt(r), Store(Reg(r), name)];
    VarsAppend(d.lines, [ReadInt(r), Store(Reg(r), name)], s, d.state, s2);
  }

  /** `Print` neither allocates nor stores: the variable printed is only loaded. */
  lemma PrintVars(t: Tree, s: State)
    requires |t.children| >= 1
    ensures Quiet(PrintGen(t, s).lines)
    ensures VarsOk(PrintGen(t, s).lines, s, PrintGen(t, s).state)
  {
    QuietVars(PrintGen(t, s).lines, s, PrintGen(t, s).state);
  }

  lemma {:induction false} InstructionVars(t: Tree, s: State)
    requires StatementOk(t)
    ensures VarsOk(InstructionGen(t, s).lines, s, InstructionGen(t, s).state)
    decreases t, 3, 0
  {
    match KindOf(t)
    case AssignInstr => AssignVars(t, s);
    case ReadInstr => ReadVars(t, s);
    case PrintInstr => PrintVars(t, s);
    case WhileInstr => WhileVars(t, s.whileIndex, s);
    case ForInstr => ForVars(t, s.forIndex, s);
    case IfInstr => IfVars(t, s.ifIndex, s);
    case _ => QuietVars([], s, s);
  }

  lemma {:induction false} CodeVars(code: Tree, s: State)
    requires CodeOk(code)
    ensures VarsOk(CodeGen(code, s).lines, s, CodeGen(code, s).state)
    decreases code, 2, 0
  {
    InstructionsVars(code, 0, s);
  }

  lemma {:induction false} InstructionsVars(code: Tree, i: nat, s: State)
    requires CodeOk(code) && i <= |code.children|
    ensures VarsOk(InstructionsGen(code, i, s).lines, s, InstructionsGen(code, i, s).state)
    decreases code, 1, |code.children| - i
  {
    if i == |code.children| {
      QuietVars([], s, s);
    } else {
      var g := InstructionGen(code.children[i], s);
      var rest := InstructionsGen(code, i + 1, g.state);
      InstructionVars(code.children[i], s);
      InstructionsVars(code, i + 1, g.state);
      Around([], g.lines, [Blank], s, g.state);
      assert [] + g.lines + [Blank] == g.lines + [Blank];
      VarsAppend(g.lines + [Blank], rest.lines, s, g.state, rest.state);
    }
  }

  lemma {:induction false} IfVars(t: Tree, index: nat, s: State)
    requires IfOk(t)
    ensures VarsOk(IfGen(t, index, s).lines, s, IfGen(t, index, s).state)
    decreases t, 2, 0
  {
    if |t.children| == 3 {
      IfElseVars(t, index, s);
    } else if |t.children| >= 2 {
      IfEndVars(t, index, s);
    } else {
      QuietVars([], s, s);
    }
  }

  /** A conditional with an else-part. */
  lemma {:induction false} IfElseVars(t: Tree, index: nat, s: State)
    requires IfOk(t) && |t.children| == 3
    ensures VarsOk(IfGen(t, index, s).lines, s, IfGen(t, index, s).state)
    decreases t, 1, 0
  {
    var ch := t.children;
    var s1 := State(s.unnamedVar, s.ifIndex + 1, s.whileIndex, s.forIndex, s.variables);
    var c := OperateGen(ch[0], s1);
    var cond := c.state.unnamedVar;
    var b0 := WithRegister(c.state, cond + 1);
    var body := CodeGen(ch[1], b0);
    var other := CodeGen(ch[2], body.state);
    OperateQuiet(ch[0], s1);
    CodeVars(ch[1], b0);
    CodeVars(ch[2], body.state);
    IfElseUnfold(t, index, s, c, cond, body, other);
    IfElseAssembly(c.lines, body.lines, other.lines, IfGen(t, index, s).lines, cond, index, s, body.state, other.state);
  }

  /** A conditional without an else-part. */
  lemma {:induction false} IfEndVars(t: Tree, index: nat, s: State)
    requires IfOk(t) && 2 <= |t.children| != 3
    ensures VarsOk(IfGen(t, index, s).lines, s, IfGen(t, index, s).state)
    decreases t, 1, 0
  {
    var ch := t.children;
    var s1 := State(s.unnamedVar, s.ifIndex + 1, s.whileIndex, s.forIndex, s.variables);
    var c := OperateGen(ch[0], s1);
    var cond := c.state.unnamedVar;
    var b0 := WithRegister(c.state, cond + 1);
    var body := CodeGen(ch[1], b0);
    OperateQuiet(ch[0], s1);
    CodeVars(ch[1], b0);
    IfThenUnfold(t, index, s, c, cond, body);
    IfEndAssembly(c.lines, body.lines, IfGen(t, index, s).lines, cond, index, s, body.state);
  }

  lemma IfElseAssembly(c: seq<Line>, body: seq<Line>, other: seq<Line>, lines: seq<Line>, cond: nat, index: nat,
                       s: State, sb: State, so: State)
    requires Quiet(c) && VarsOk(body, s, sb) && VarsOk(other, sb, so)
    requires lines == c + [CondBr(cond, Label(IfCode, index), Label(ElseCode, index)), Mark(Label(IfCode, index))]
      + body + [Br(Label(EndIf, index))] + [Mark(Label(ElseCode, index))] + other
      + [Br(Label(EndIf, index)), Mark(Label(EndIf, index))]
    ensures VarsOk(lines, s, so)
  {
    var q1 := c + [CondBr(cond, Label(IfCode, index), Label(ElseCode, index)), Mark(Label(IfCode, index))];
    var thenPart := q1 + body + [Br(Label(EndIf, index))];
    var elsePart := [Mark(Label(ElseCode, index))] + other + [Br(Label(EndIf, index)), Mark(Label(EndIf, index))];
    Around(q1, body, [Br(Label(EndIf, index))], s, sb);
    Around([Mark(Label(ElseCode, index))], other, [Br(Label(EndIf, index)), Mark(Label(EndIf, index))], sb, so);
    VarsAppend(thenPart, elsePart, s, sb, so);
    assert lines == thenPart + elsePart;
  }

  lemma IfEndAssembly(c: seq<Line>, body: seq<Line>, lines: seq<Line>, cond: nat, index: nat, s: State, sb: State)
    requires Quiet(c) && VarsOk(body, s, sb)
    requires lines == c + [CondBr(cond, Label(IfCode, index), Label(EndIf, index)), Mark(Label(IfCode, index))]
      + body + [Br(Label(EndIf, index))] + [Mark(Label(EndIf, index))]
    ensures VarsOk(lines, s, sb)
  {
    var q1 := c + [CondBr(cond, Label(IfCode, index), Label(EndIf, index)), Mark(Label(IfCode, index))];
    Around(q1, body, [Br(Label(EndIf, index))] + [Mark(Label(EndIf, index))], s, sb);
    assert lines == q1 + body + ([Br(Label(EndIf, index))] + [Mark(Label(EndIf, index))]);
  }

  lemma {:induction false} WhileVars(t: Tree, index: nat, s: State)
    requires WhileOk(t)
    ensures VarsOk(WhileGen(t, index, s).lines, s, WhileGen(t, index, s).state)
    decreases t, 2, 0
  {
    var ch := t.children;
    if |ch| < 2 {
      QuietVars([], s, s);
    } else {
      var s1 := State(s.unnamedVar, s.ifIndex, s.whileIndex + 1, s.forIndex, s.variables);
      var c := OperateGen(ch[0], s1);
      var cond := c.state.unnamedVar;
      var b0 := WithRegister(c.state, cond + 1);
      var body := CodeGen(ch[1], b0);
      OperateQuiet(ch[0], s1);
      CodeVars(ch[1], b0);
      WhileUnfold(t, index, s, c, cond, body);
      WhileParts(c.lines, body.lines, WhileGen(t, index, s).lines, cond, index, s, body.state);
    }
  }

  lemma WhileParts(c: seq<Line>, body: seq<Line>, lines: seq<Line>, cond: nat, index: nat, s: State, s2: State)
    requires Quiet(c) && VarsOk(body, s, s2)
    requires lines == [Br(Label(WhileCond, index)), Mark(Label(WhileCond, index))] + c
      + [CondBr(cond, Label(WhileCode, index), Label(EndWhile, index)), Mark(Label(WhileCode, index))]
      + body + [Br(Label(WhileCond, index)), Mark(Label(EndWhile, index))]
    ensures VarsOk(lines, s, s2)
  {
    var q1 := [Br(Label(WhileCond, index)), Mark(Label(WhileCond, index))] + c
      + [CondBr(cond, Label(WhileCode, index), Label(EndWhile, index)), Mark(Label(WhileCode, index))];
    Around(q1, body, [Br(Label(WhileCond, index)), Mark(Label(EndWhile, index))], s, s2);
  }

  lemma {:induction false} ForVars(t: Tree, index: nat, s: State)
    requires ForOk(t)
    ensures VarsOk(ForGen(t, index, s).lines, s, ForGen(t, index, s).state)
    decreases t, 2, 0
  {
    var ch := t.children;
    if |ch| < 5 {
      QuietVars([], s, s);
    } else {
      var s1 := State(s.unnamedVar, s.ifIndex, s.whileIndex, s.forIndex + 1, s.variables);
      var init := AssignGen(t, s1);
      var i := init.state.unnamedVar;
      var test := ForTestGen(t, index, init.state);
      var body := CodeGen(ch[4], test.state);
      var step := ForStepGen(t, index, i, body.state);
      AssignVars(t, s1);
      ForTestVars(t, index, init.state);
      CodeVars(ch[4], test.state);
      ForStepVars(t, index, i, body.state);
      ForUnfold(t, index, s, init, test, body, step);
      ForAssembly(init.lines, test.lines, body.lines, step.lines, ForGen(t, index, s).lines,
        s, init.state, test.state, body.state, step.state);
    }
  }

  lemma ForAssembly(init: seq<Line>, test: seq<Line>, body: seq<Line>, step: seq<Line>, lines: seq<Line>,
                    s: State, s1: State, s2: State, s3: State, s4: State)
    requires VarsOk(init, s, s1) && VarsOk(test, s1, s2) && VarsOk(body, s2, s3) && VarsOk(step, s3, s4)
    requires lines == init + test + body + step
    ensures VarsOk(lines, s, s4)
  {
    VarsAppend(init, test, s, s1, s2);
    VarsAppend(init + test, body, s, s2, s3);
    VarsAppend(init + test + body, step, s, s3, s4);
  }

  lemma ForTestVars(t: Tree, index: nat, s: State)
    requires |t.children| >= 5 && IsVariable(t.children[0]) && OperandOk(t.children[3])
    ensures VarsOk(ForTestGen(t, index, s).lines, s, ForTestGen(t, index, s).state)
    ensures ForTestGen(t, index, s).state.variables == s.variables
  {
    var ch := t.children;
    var i := s.unnamedVar;
    OperandQuiet(ch[3], WithRegister(s, i + 1));
    QuietVars(ForTestGen(t, index, s).lines, s, ForTestGen(t, index, s).state);
  }

  /** The step stores into the loop variable, which its start assignment allocated. */
  lemma ForStepVars(t: Tree, index: nat, i: nat, s: State)
    requires |t.children| >= 5 && OperandOk(t.children[2]) && Name(t.children[0]) in s.variables
    ensures VarsOk(ForStepGen(t, index, i, s).lines, s, ForStepGen(t, index, i, s).state)
  {
    var ch := t.children;
    var step := OperandGen(ch[2], s);
    var p := step.state.unnamedVar;
    var s2 := WithRegister(step.state, p + 1);
    OperandQuiet(ch[2], s);
    var add, store := Op(p, Add, 32, Reg(i), step.operands[0]), Store(Reg(p), Name(ch[0]));
    StoreVars(store, s2);
    Around(step.lines + [add], [store], [Br(Label(ForCond, index)), Mark(Label(EndFor, index))], s2, s2);
    assert ForStepGen(t, index, i, s).lines
      == step.lines + [add] + [store] + [Br(Label(ForCond, index)), Mark(Label(EndFor, index))];
  }

  /**
   * In a compiled program every store goes to a variable allocated before
   * it, no variable is allocated twice, and the generator's list of
   * variables is exactly the allocated variables, in order.
   */
  lemma ProgramVars(ast: Tree)
    requires Compilable(ast)
    ensures Declared(ProgramGen(ast).lines, [])
    ensures ProgramGen(ast).state.variables == Allocas(ProgramGen(ast).lines)
    ensures NoDuplicates(ProgramGen(ast).state.variables)
  {
    var body := CodeGen(ast.children[1], Initial);
    CodeVars(ast.children[1], Initial);
    Around([Begin], body.lines, [End], Initial, body.state);
    assert [] + Allocas(ProgramGen(ast).lines) == Allocas(ProgramGen(ast).lines);
    DeclaredDistinct(ProgramGen(ast).lines, []);
  }
}
