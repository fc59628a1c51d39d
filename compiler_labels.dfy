// The label discipline of the code generator (src/Compiler.java:227-365):
// each `if`, `while` and `for` takes its index from its own counter and
// bumps that counter before lowering its parts, so every label is placed at
// most once, and every branch goes to a label the program places.
module CompilerLabels {
  import opened Trees
  import opened LlvmIr
  import opened CompilerSpec

  /** The counter that indexes a label family. */
  function Counter(s: State, k: LabelKind): nat
  {
    match k
    case IfCode | ElseCode | EndIf => s.ifIndex
    case WhileCond | WhileCode | EndWhile => s.whileIndex
    case ForCond | ForCode | EndFor => s.forIndex
  }

  /** No counter goes back. */
  predicate Advances(s: State, s2: State)
  {
    s.ifIndex <= s2.ifIndex && s.whileIndex <= s2.whileIndex && s.forIndex <= s2.forIndex
  }

  /** Each label's index lies between its family's counter before and after. */
  predicate FreshIn(ms: seq<Label>, s: State, s2: State)
  {
    forall j :: 0 <= j < |ms| ==> Counter(s, ms[j].kind) <= ms[j].index < Counter(s2, ms[j].kind)
  }

  /** Every label branched to is placed. */
  predicate Closed(lines: seq<Line>)
  {
    forall l :: l in AllTargets(lines) ==> l in Marks(lines)
  }

  /**
   * Lines written from state s to state s2: the counters do not go back,
   * each label placed is placed once and is fresh, and every branch target
   * is among the labels placed.
   */
  predicate WellLabelled(lines: seq<Line>, s: State, s2: State)
  {
    Advances(s, s2) && NoDuplicates(Marks(lines)) && FreshIn(Marks(lines), s, s2) && Closed(lines)
  }

  /** Lines that neither place nor branch to a label. */
  predicate Unlabelled(lines: seq<Line>)
  {
    Marks(lines) == [] && AllTargets(lines) == {}
  }

  lemma LabelsAppend(a: seq<Line>, b: seq<Line>)
    ensures Marks(a + b) == Marks(a) + Marks(b)
    ensures AllTargets(a + b) == AllTargets(a) + AllTargets(b)
  {
    MarksAppend(a, b);
    AllTargetsAppend(a, b);
  }

  lemma LabelsOfLine(x: Line)
    ensures Marks([x]) == (if x.Mark? then [x.place] else [])
    ensures AllTargets([x]) == Targets(x)
  {
    assert MarksFrom([x], 1) == [];
    assert TargetsFrom([x], 1) == {};
  }

  lemma LabelsOfPair(x: Line, y: Line)
    ensures Marks([x, y]) == Marks([x]) + Marks([y])
    ensures AllTargets([x, y]) == AllTargets([x]) + AllTargets([y])
  {
    assert [x, y] == [x] + [y];
    LabelsAppend([x], [y]);
  }

  lemma NoDuplicatesAppend<T>(x: seq<T>, y: seq<T>)
    requires NoDuplicates(x) && NoDuplicates(y)
    requires forall i, j :: 0 <= i < |x| && 0 <= j < |y| ==> x[i] != y[j]
    ensures NoDuplicates(x + y)
  {
  }

  /** Labels fresh in consecutive stretches of the counters are distinct. */
  lemma FreshApart(x: seq<Label>, y: seq<Label>, s0: State, s1: State, s2: State)
    requires FreshIn(x, s0, s1) && FreshIn(y, s1, s2)
    ensures forall i, j :: 0 <= i < |x| && 0 <= j < |y| ==> x[i] != y[j]
  {
  }

  lemma FreshAppend(x: seq<Label>, y: seq<Label>, s0: State, s1: State, s2: State)
    requires FreshIn(x, s0, s1) && FreshIn(y, s1, s2) && Advances(s0, s1) && Advances(s1, s2)
    ensures FreshIn(x + y, s0, s2)
  {
  }

  /** Two stretches of lines in a row. */
  lemma WellLabelledAppend(a: seq<Line>, b: seq<Line>, s0: State, s1: State, s2: State)
    requires WellLabelled(a, s0, s1) && WellLabelled(b, s1, s2)
    ensures WellLabelled(a + b, s0, s2)
  {
    LabelsAppend(a, b);
    FreshApart(Marks(a), Marks(b), s0, s1, s2);
    NoDuplicatesAppend(Marks(a), Marks(b));
    FreshAppend(Marks(a), Marks(b), s0, s1, s2);
  }

  lemma UnlabelledAppend(a: seq<Line>, b: seq<Line>)
    requires Unlabelled(a) && Unlabelled(b)
    ensures Unlabelled(a + b)
  {
    LabelsAppend(a, b);
  }

  /** Unlabelled lines that leave the label counters as they were. */
  lemma UnlabelledWell(a: seq<Line>, s: State, s2: State)
    requires Unlabelled(a)
    requires s.ifIndex == s2.ifIndex && s.whileIndex == s2.whileIndex && s.forIndex == s2.forIndex
    ensures WellLabelled(a, s, s2)
  {
  }

  // Expressions place no labels and branch nowhere.

  lemma {:induction false} OperateUnlabelled(t: Tree, s: State)
    requires Evaluable(t)
    ensures Unlabelled(OperateGen(t, s).lines)
    decreases t, 2, 0
  {
    if IsVariable(t) {
      LabelsOfLine(Load(s.unnamedVar, Name(t)));
    } else {
      var ops := OperandsGen(t, 0, s);
      var g := OperateGen(t, s);
      OperandsUnlabelled(t, 0, s);
      LabelsOfLine(g.lines[|g.lines| - 1]);
      assert g.lines == ops.lines + [g.lines[|g.lines| - 1]];
      UnlabelledAppend(ops.lines, [g.lines[|g.lines| - 1]]);
    }
  }

  lemma {:induction false} OperandsUnlabelled(t: Tree, i: nat, s: State)
    requires !IsVariable(t) && Evaluable(t) && i <= OperandCount(t.symbol.unit.value)
    ensures Unlabelled(OperandsGen(t, i, s).lines)
    decreases t, 1, OperandCount(t.symbol.unit.value) - i
  {
    if i < OperandCount(t.symbol.unit.value) {
      var first := OperandGen(t.children[i], s);
      OperandUnlabelled(t.children[i], s);
      OperandsUnlabelled(t, i + 1, first.state);
      UnlabelledAppend(first.lines, OperandsGen(t, i + 1, first.state).lines);
    }
  }

  lemma {:induction false} OperandUnlabelled(c: Tree, s: State)
    requires OperandOk(c)
    ensures Unlabelled(OperandGen(c, s).lines)
    decreases c, 3, 0
  {
    if !IsNumber(c) {
      OperateUnlabelled(c, s);
    }
  }

  // Simple statements place no labels and leave the label counters alone.

  lemma DeclareUnlabelled(name: string, s: State)
    ensures Unlabelled(Declare(name, s).lines)
  {
    if name !in s.variables {
      LabelsOfLine(Alloca(name));
    }
  }

  lemma AssignLabelled(t: Tree, s: State)
    requires AssignOk(t)
    ensures Unlabelled(AssignGen(t, s).lines)
    ensures WellLabelled(AssignGen(t, s).lines, s, AssignGen(t, s).state)
  {
    var name := Name(t.children[0]);
    var d := Declare(name, s);
    var v := OperandGen(t.children[1], d.state);
    DeclareUnlabelled(name, s);
    OperandUnlabelled(t.children[1], d.state);
    UnlabelledAppend(d.lines, v.lines);
    LabelsOfLine(Store(v.operands[0], name));
    UnlabelledAppend(d.lines + v.lines, [Store(v.operands[0], name)]);
    UnlabelledWell(AssignGen(t, s).lines, s, AssignGen(t, s).state);
  }

  lemma ReadLabelled(t: Tree, s: State)
    requires |t.children| >= 1
    ensures WellLabelled(ReadGen(t, s).lines, s, ReadGen(t, s).state)
  {
    var name := Name(t.children[0]);
    var d := Declare(name, s);
    var r := d.state.unnamedVar;
    DeclareUnlabelled(name, s);
    LabelsOfPair(ReadInt(r), Store(Reg(r), name));
    LabelsOfLine(ReadInt(r));
    LabelsOfLine(Store(Reg(r), name));
    UnlabelledAppend(d.lines, [ReadInt(r), Store(Reg(r), name)]);
    UnlabelledWell(ReadGen(t, s).lines, s, ReadGen(t, s).state);
  }

  lemma PrintLabelled(t: Tree, s: State)
    requires |t.children| >= 1
    ensures WellLabelled(PrintGen(t, s).lines, s, PrintGen(t, s).state)
  {
    var r := s.unnamedVar;
    LabelsOfPair(Load(r, Name(t.children[0])), Println(r));
    LabelsOfLine(Load(r, Name(t.children[0])));
    LabelsOfLine(Println(r));
    UnlabelledWell(PrintGen(t, s).lines, s, PrintGen(t, s).state);
  }

  // Statements and code, by mutual induction.

  lemma {:induction false} InstructionLabelled(t: Tree, s: State)
    requires StatementOk(t)
    ensures WellLabelled(InstructionGen(t, s).lines, s, InstructionGen(t, s).state)
    decreases t, 3, 0
  {
    match KindOf(t)
    case AssignInstr => AssignLabelled(t, s);
    case ReadInstr => ReadLabelled(t, s);
    case PrintInstr => PrintLabelled(t, s);
    case WhileInstr => WhileLabelled(t, s);
    case ForInstr => ForLabelled(t, s);
    case IfInstr => IfLabelled(t, s);
    case _ =>
  }

  lemma {:induction false} CodeLabelled(code: Tree, s: State)
    requires CodeOk(code)
    ensures WellLabelled(CodeGen(code, s).lines, s, CodeGen(code, s).state)
    decreases code, 2, 0
  {
    InstructionsLabelled(code, 0, s);
  }

  lemma {:induction false} InstructionsLabelled(code: Tree, i: nat, s: State)
    requires CodeOk(code) && i <= |code.children|
    ensures WellLabelled(InstructionsGen(code, i, s).lines, s, InstructionsGen(code, i, s).state)
    decreases code, 1, |code.children| - i
  {
    if i < |code.children| {
      var g := InstructionGen(code.children[i], s);
      var rest := InstructionsGen(code, i + 1, g.state);
      InstructionLabelled(code.children[i], s);
      InstructionsLabelled(code, i + 1, g.state);
      LabelsOfLine(Blank);
      UnlabelledWell([Blank], g.state, g.state);
      WellLabelledAppend(g.lines, [Blank], s, g.state, g.state);
      WellLabelledAppend(g.lines + [Blank], rest.lines, s, g.state, rest.state);
    }
  }

  lemma {:induction false} IfLabelled(t: Tree, s: State)
    requires IfOk(t)
    ensures WellLabelled(IfGen(t, s.ifIndex, s).lines, s, IfGen(t, s.ifIndex, s).state)
    decreases t, 2, 0
  {
    if |t.children| == 3 {
      IfElseLabelled(t, s);
    } else if |t.children| >= 2 {
      IfEndLabelled(t, s);
    }
  }

  /** A conditional with an else-part. */
  lemma {:induction false} IfElseLabelled(t: Tree, s: State)
    requires IfOk(t) && |t.children| == 3
    ensures WellLabelled(IfGen(t, s.ifIndex, s).lines, s, IfGen(t, s.ifIndex, s).state)
    decreases t, 1, 0
  {
    var ch := t.children;
    var index := s.ifIndex;
    var s1 := State(s.unnamedVar, s.ifIndex + 1, s.whileIndex, s.forIndex, s.variables);
    var c := OperateGen(ch[0], s1);
    var cond := c.state.unnamedVar;
    var b0 := WithRegister(c.state, cond + 1);
    var body := CodeGen(ch[1], b0);
    var other := CodeGen(ch[2], body.state);
    OperateUnlabelled(ch[0], s1);
    CodeLabelled(ch[1], b0);
    CodeLabelled(ch[2], body.state);
    IfElseUnfold(t, index, s, c, cond, body, other);
    IfElseAssembly(c.lines, body.lines, other.lines, IfGen(t, index, s).lines, cond, s, b0, body.state, other.state);
  }

  /** A conditional without an else-part. */
  lemma {:induction false} IfEndLabelled(t: Tree, s: State)
    requires IfOk(t) && 2 <= |t.children| != 3
    ensures WellLabelled(IfGen(t, s.ifIndex, s).lines, s, IfGen(t, s.ifIndex, s).state)
    decreases t, 1, 0
  {
    var ch := t.children;
    var index := s.ifIndex;
    var s1 := State(s.unnamedVar, s.ifIndex + 1, s.whileIndex, s.forIndex, s.variables);
    var c := OperateGen(ch[0], s1);
    var cond := c.state.unnamedVar;
    var b0 := WithRegister(c.state, cond + 1);
    var body := CodeGen(ch[1], b0);
    OperateUnlabelled(ch[0], s1);
    CodeLabelled(ch[1], b0);
    IfThenUnfold(t, index, s, c, cond, body);
    IfEndAssembly(c.lines, body.lines, IfGen(t, index, s).lines, cond, s, b0, body.state);
  }

  lemma IfElseAssembly(c: seq<Line>, body: seq<Line>, other: seq<Line>, lines: seq<Line>, cond: nat,
                       s: State, b0: State, sb: State, so: State)
    requires Unlabelled(c)
    requires b0.ifIndex == s.ifIndex + 1 && b0.whileIndex == s.whileIndex && b0.forIndex == s.forIndex
    requires WellLabelled(body, b0, sb) && WellLabelled(other, sb, so)
    requires var index := s.ifIndex;
      lines == c + [CondBr(cond, Label(IfCode, index), Label(ElseCode, index)), Mark(Label(IfCode, index))]
        + body + [Br(Label(EndIf, index))] + [Mark(Label(ElseCode, index))] + other
        + [Br(Label(EndIf, index)), Mark(Label(EndIf, index))]
    ensures WellLabelled(lines, s, so)
  {
    var index := s.ifIndex;
    var thenPart := c + [CondBr(cond, Label(IfCode, index), Label(ElseCode, index)), Mark(Label(IfCode, index))]
      + body + [Br(Label(EndIf, index))];
    IfThenParts(c, body, thenPart, cond, Label(ElseCode, index), index);
    IfElseParts(thenPart, other, lines, index);
    IfElseLabels(Marks(body), Marks(other), s, b0, sb, so);
    forall l | l in AllTargets(lines)
      ensures l in Marks(lines)
    {
      if l in AllTargets(body) {
        assert l in Marks(body);
      } else if l in AllTargets(other) {
        assert l in Marks(other);
      }
    }
  }

  lemma IfEndAssembly(c: seq<Line>, body: seq<Line>, lines: seq<Line>, cond: nat, s: State, b0: State, sb: State)
    requires Unlabelled(c)
    requires b0.ifIndex == s.ifIndex + 1 && b0.whileIndex == s.whileIndex && b0.forIndex == s.forIndex
    requires WellLabelled(body, b0, sb)
    requires var index := s.ifIndex;
      lines == c + [CondBr(cond, Label(IfCode, index), Label(EndIf, index)), Mark(Label(IfCode, index))]
        + body + [Br(Label(EndIf, index))] + [Mark(Label(EndIf, index))]
    ensures WellLabelled(lines, s, sb)
  {
    var index := s.ifIndex;
    var thenPart := c + [CondBr(cond, Label(IfCode, index), Label(EndIf, index)), Mark(Label(IfCode, index))]
      + body + [Br(Label(EndIf, index))];
    IfThenParts(c, body, thenPart, cond, Label(EndIf, index), index);
    IfEndParts(thenPart, lines, index);
    IfEndLabels(Marks(body), s, b0, sb);
    forall l | l in AllTargets(lines)
      ensures l in Marks(lines)
    {
      if l in AllTargets(body) {
        assert l in Marks(body);
      }
    }
  }

  lemma IfThenParts(c: seq<Line>, body: seq<Line>, lines: seq<Line>, cond: nat, ifFalse: Label, index: nat)
    requires Unlabelled(c)
    requires lines == c + [CondBr(cond, Label(IfCode, index), ifFalse), Mark(Label(IfCode, index))] + body + [Br(Label(EndIf, index))]
    ensures Marks(lines) == [Label(IfCode, index)] + Marks(body)
    ensures AllTargets(lines) == {Label(IfCode, index), ifFalse, Label(EndIf, index)} + AllTargets(body)
  {
    var x, y, z := CondBr(cond, Label(IfCode, index), ifFalse), Mark(Label(IfCode, index)), Br(Label(EndIf, index));
    LabelsOfPair(x, y);
    LabelsOfLine(x);
    LabelsOfLine(y);
    LabelsOfLine(z);
    LabelsAppend(c, [x, y]);
    LabelsAppend(c + [x, y], body);
    LabelsAppend(c + [x, y] + body, [z]);
  }

  lemma IfElseParts(thenPart: seq<Line>, other: seq<Line>, lines: seq<Line>, index: nat)
    requires lines == thenPart + [Mark(Label(ElseCode, index))] + other + [Br(Label(EndIf, index)), Mark(Label(EndIf, index))]
    ensures Marks(lines) == Marks(thenPart) + [Label(ElseCode, index)] + Marks(other) + [Label(EndIf, index)]
    ensures AllTargets(lines) == AllTargets(thenPart) + AllTargets(other) + {Label(EndIf, index)}
  {
    var x, y, z := Mark(Label(ElseCode, index)), Br(Label(EndIf, index)), Mark(Label(EndIf, index));
    LabelsOfLine(x);
    LabelsOfPair(y, z);
    LabelsOfLine(y);
    LabelsOfLine(z);
    LabelsAppend(thenPart, [x]);
    LabelsAppend(thenPart + [x], other);
    LabelsAppend(thenPart + [x] + other, [y, z]);
  }

  lemma IfEndParts(thenPart: seq<Line>, lines: seq<Line>, index: nat)
    requires lines == thenPart + [Mark(Label(EndIf, index))]
    ensures Marks(lines) == Marks(thenPart) + [Label(EndIf, index)]
    ensures AllTargets(lines) == AllTargets(thenPart)
  {
    LabelsOfLine(Mark(Label(EndIf, index)));
    LabelsAppend(thenPart, [Mark(Label(EndIf, index))]);
  }

  lemma IfElseLabels(bm: seq<Label>, om: seq<Label>, s: State, s1: State, sb: State, so: State)
    requires s1.ifIndex == s.ifIndex + 1 && s1.whileIndex == s.whileIndex && s1.forIndex == s.forIndex
    requires Advances(s1, sb) && NoDuplicates(bm) && FreshIn(bm, s1, sb)
    requires Advances(sb, so) && NoDuplicates(om) && FreshIn(om, sb, so)
    ensures var ms := [Label(IfCode, s.ifIndex)] + bm + [Label(ElseCode, s.ifIndex)] + om + [Label(EndIf, s.ifIndex)];
      NoDuplicates(ms) && FreshIn(ms, s, so)
  {
    var index := s.ifIndex;
    var own := [Label(IfCode, index), Label(ElseCode, index), Label(EndIf, index)];
    assert FreshIn(own, s, s1);
    FreshApart(bm, om, s1, sb, so);
  }

  lemma IfEndLabels(bm: seq<Label>, s: State, s1: State, sb: State)
    requires s1.ifIndex == s.ifIndex + 1 && s1.whileIndex == s.whileIndex && s1.forIndex == s.forIndex
    requires Advances(s1, sb) && NoDuplicates(bm) && FreshIn(bm, s1, sb)
    ensures var ms := [Label(IfCode, s.ifIndex)] + bm + [Label(EndIf, s.ifIndex)];
      NoDuplicates(ms) && FreshIn(ms, s, sb)
  {
  }

  lemma {:induction false} WhileLabelled(t: Tree, s: State)
    requires WhileOk(t)
    ensures WellLabelled(WhileGen(t, s.whileIndex, s).lines, s, WhileGen(t, s.whileIndex, s).state)
    decreases t, 2, 0
  {
    var ch := t.children;
    var index := s.whileIndex;
    if |ch| >= 2 {
      var s1 := State(s.unnamedVar, s.ifIndex, s.whileIndex + 1, s.forIndex, s.variables);
      var c := OperateGen(ch[0], s1);
      var cond := c.state.unnamedVar;
      var b0 := WithRegister(c.state, cond + 1);
      var body := CodeGen(ch[1], b0);
      OperateUnlabelled(ch[0], s1);
      CodeLabelled(ch[1], b0);
      WhileUnfold(t, index, s, c, cond, body);
      WhileAssembly(c.lines, body.lines, WhileGen(t, index, s).lines, cond, s, b0, body.state);
    }
  }

  lemma WhileAssembly(c: seq<Line>, body: seq<Line>, lines: seq<Line>, cond: nat, s: State, b0: State, sb: State)
    requires Unlabelled(c)
    requires b0.ifIndex == s.ifIndex && b0.whileIndex == s.whileIndex + 1 && b0.forIndex == s.forIndex
    requires WellLabelled(body, b0, sb)
    requires var index := s.whileIndex;
      lines == [Br(Label(WhileCond, index)), Mark(Label(WhileCond, index))] + c
        + [CondBr(cond, Label(WhileCode, index), Label(EndWhile, index)), Mark(Label(WhileCode, index))]
        + body + [Br(Label(WhileCond, index)), Mark(Label(EndWhile, index))]
    ensures WellLabelled(lines, s, sb)
  {
    WhileParts(c, body, lines, cond, s.whileIndex);
    WhileLabels(Marks(body), s, b0, sb);
    forall l | l in AllTargets(lines)
      ensures l in Marks(lines)
    {
      if l in AllTargets(body) {
        assert l in Marks(body);
      }
    }
  }

  lemma WhileParts(c: seq<Line>, body: seq<Line>, lines: seq<Line>, cond: nat, index: nat)
    requires Unlabelled(c)
    requires lines == [Br(Label(WhileCond, index)), Mark(Label(WhileCond, index))] + c
      + [CondBr(cond, Label(WhileCode, index), Label(EndWhile, index)), Mark(Label(WhileCode, index))]
      + body + [Br(Label(WhileCond, index)), Mark(Label(EndWhile, index))]
    ensures Marks(lines) == [Label(WhileCond, index), Label(WhileCode, index)] + Marks(body) + [Label(EndWhile, index)]
    ensures AllTargets(lines) == {Label(WhileCond, index), Label(WhileCode, index), Label(EndWhile, index)} + AllTargets(body)
  {
    var w, x := Br(Label(WhileCond, index)), Mark(Label(WhileCond, index));
    var y, z := CondBr(cond, Label(WhileCode, index), Label(EndWhile, index)), Mark(Label(WhileCode, index));
    var u, v := Br(Label(WhileCond, index)), Mark(Label(EndWhile, index));
    LabelsOfPair(w, x);
    LabelsOfPair(y, z);
    LabelsOfPair(u, v);
    LabelsOfLine(w);
    LabelsOfLine(x);
    LabelsOfLine(y);
    LabelsOfLine(z);
    LabelsOfLine(u);
    LabelsOfLine(v);
    LabelsAppend([w, x], c);
    LabelsAppend([w, x] + c, [y, z]);
    LabelsAppend([w, x] + c + [y, z], body);
    LabelsAppend([w, x] + c + [y, z] + body, [u, v]);
  }

  lemma WhileLabels(bm: seq<Label>, s: State, s1: State, sb: State)
    requires s1.ifIndex == s.ifIndex && s1.whileIndex == s.whileIndex + 1 && s1.forIndex == s.forIndex
    requires Advances(s1, sb) && NoDuplicates(bm) && FreshIn(bm, s1, sb)
    ensures var ms := [Label(WhileCond, s.whileIndex), Label(WhileCode, s.whileIndex)] + bm + [Label(EndWhile, s.whileIndex)];
      NoDuplicates(ms) && FreshIn(ms, s, sb)
  {
  }

  lemma {:induction false} ForLabelled(t: Tree, s: State)
    requires ForOk(t)
    ensures WellLabelled(ForGen(t, s.forIndex, s).lines, s, ForGen(t, s.forIndex, s).state)
    decreases t, 2, 0
  {
    var ch := t.children;
    var index := s.forIndex;
    if |ch| >= 5 {
      var s1 := State(s.unnamedVar, s.ifIndex, s.whileIndex, s.forIndex + 1, s.variables);
      var init := AssignGen(t, s1);
      var i := init.state.unnamedVar;
      var test := ForTestGen(t, index, init.state);
      var body := CodeGen(ch[4], test.state);
      var step := ForStepGen(t, index, i, body.state);
      AssignLabelled(t, s1);
      ForTestLabels(t, index, init.state);
      CodeLabelled(ch[4], test.state);
      ForStepLabels(t, index, i, body.state);
      ForUnfold(t, index, s, init, test, body, step);
      ForAssembly(init.lines, test.lines, body.lines, step.lines, ForGen(t, index, s).lines, s, test.state, body.state);
    }
  }

  lemma ForAssembly(init: seq<Line>, test: seq<Line>, body: seq<Line>, step: seq<Line>, lines: seq<Line>,
                    s: State, b0: State, sb: State)
    requires Unlabelled(init) && lines == init + test + body + step
    requires b0.ifIndex == s.ifIndex && b0.whileIndex == s.whileIndex && b0.forIndex == s.forIndex + 1
    requires WellLabelled(body, b0, sb)
    requires var index := s.forIndex;
      Marks(test) == [Label(ForCond, index), Label(ForCode, index)] &&
      AllTargets(test) == {Label(ForCond, index), Label(ForCode, index), Label(EndFor, index)} &&
      Marks(step) == [Label(EndFor, index)] && AllTargets(step) == {Label(ForCond, index)}
    ensures WellLabelled(lines, s, sb)
  {
    ForParts(init, test, body, step, lines);
    ForLabels(Marks(body), s, b0, sb);
    forall l | l in AllTargets(lines)
      ensures l in Marks(lines)
    {
      if l in AllTargets(body) {
        assert l in Marks(body);
      }
    }
  }

  lemma ForTestLabels(t: Tree, index: nat, s: State)
    requires |t.children| >= 5 && IsVariable(t.children[0]) && OperandOk(t.children[3])
    ensures Marks(ForTestGen(t, index, s).lines) == [Label(ForCond, index), Label(ForCode, index)]
    ensures AllTargets(ForTestGen(t, index, s).lines) == {Label(ForCond, index), Label(ForCode, index), Label(EndFor, index)}
  {
    var ch := t.children;
    var i := s.unnamedVar;
    var max := OperandGen(ch[3], WithRegister(s, i + 1));
    var cond := max.state.unnamedVar;
    OperandUnlabelled(ch[3], WithRegister(s, i + 1));
    LabelsOfLine(Load(i, Name(ch[0])));
    LabelsOfLine(Op(cond, IcmpSlt, 32, Reg(i), max.operands[0]));
    ForTestParts(max.lines, ForTestGen(t, index, s).lines, Load(i, Name(ch[0])),
      Op(cond, IcmpSlt, 32, Reg(i), max.operands[0]), cond, index);
  }

  lemma ForTestParts(m: seq<Line>, lines: seq<Line>, load: Line, compare: Line, cond: nat, index: nat)
    requires Unlabelled(m) && Unlabelled([load]) && Unlabelled([compare])
    requires lines == [Br(Label(ForCond, index)), Mark(Label(ForCond, index)), load] + m
      + [compare, CondBr(cond, Label(ForCode, index), Label(EndFor, index)), Mark(Label(ForCode, index))]
    ensures Marks(lines) == [Label(ForCond, index), Label(ForCode, index)]
    ensures AllTargets(lines) == {Label(ForCond, index), Label(ForCode, index), Label(EndFor, index)}
  {
    var w, x := Br(Label(ForCond, index)), Mark(Label(ForCond, index));
    var v, z := CondBr(cond, Label(ForCode, index), Label(EndFor, index)), Mark(Label(ForCode, index));
    var head, tail := [w, x, load], [compare, v, z];
    LabelsOfTriple(w, x, load);
    LabelsOfTriple(compare, v, z);
    LabelsOfLine(w);
    LabelsOfLine(x);
    LabelsOfLine(v);
    LabelsOfLine(z);
    assert Marks(head) == [Label(ForCond, index)] && AllTargets(head) == {Label(ForCond, index)};
    assert Marks(tail) == [Label(ForCode, index)] && AllTargets(tail) == {Label(ForCode, index), Label(EndFor, index)};
    LabelsAppend(head, m);
    LabelsAppend(head + m, tail);
  }

  lemma LabelsOfTriple(x: Line, y: Line, z: Line)
    ensures Marks([x, y, z]) == Marks([x]) + Marks([y]) + Marks([z])
    ensures AllTargets([x, y, z]) == AllTargets([x]) + AllTargets([y]) + AllTargets([z])
  {
    assert [x, y, z] == [x, y] + [z];
    LabelsOfPair(x, y);
    LabelsAppend([x, y], [z]);
  }

  lemma ForStepLabels(t: Tree, index: nat, i: nat, s: State)
    requires |t.children| >= 5 && OperandOk(t.children[2])
    ensures Marks(ForStepGen(t, index, i, s).lines) == [Label(EndFor, index)]
    ensures AllTargets(ForStepGen(t, index, i, s).lines) == {Label(ForCond, index)}
  {
    var ch := t.children;
    var step := OperandGen(ch[2], s);
    var p := step.state.unnamedVar;
    OperandUnlabelled(ch[2], s);
    LabelsOfLine(Op(p, Add, 32, Reg(i), step.operands[0]));
    LabelsOfLine(Store(Reg(p), Name(ch[0])));
    ForStepParts(step.lines, ForStepGen(t, index, i, s).lines, Op(p, Add, 32, Reg(i), step.operands[0]),
      Store(Reg(p), Name(ch[0])), index);
  }

  lemma ForStepParts(m: seq<Line>, lines: seq<Line>, add: Line, store: Line, index: nat)
    requires Unlabelled(m) && Unlabelled([add]) && Unlabelled([store])
    requires lines == m + [add, store, Br(Label(ForCond, index)), Mark(Label(EndFor, index))]
    ensures Marks(lines) == [Label(EndFor, index)]
    ensures AllTargets(lines) == {Label(ForCond, index)}
  {
    var y, z := Br(Label(ForCond, index)), Mark(Label(EndFor, index));
    LabelsOfPair(add, store);
    LabelsOfPair(y, z);
    LabelsOfLine(y);
    LabelsOfLine(z);
    assert [add, store, y, z] == [add, store] + [y, z];
    LabelsAppend([add, store], [y, z]);
    LabelsAppend(m, [add, store, y, z]);
  }

  lemma ForParts(init: seq<Line>, test: seq<Line>, body: seq<Line>, step: seq<Line>, lines: seq<Line>)
    requires Unlabelled(init) && lines == init + test + body + step
    ensures Marks(lines) == Marks(test) + Marks(body) + Marks(step)
    ensures AllTargets(lines) == AllTargets(test) + AllTargets(body) + AllTargets(step)
  {
    LabelsAppend(init, test);
    LabelsAppend(init + test, body);
    LabelsAppend(init + test + body, step);
  }

  lemma ForLabels(bm: seq<Label>, s: State, s1: State, sb: State)
    requires s1.ifIndex == s.ifIndex && s1.whileIndex == s.whileIndex && s1.forIndex == s.forIndex + 1
    requires Advances(s1, sb) && NoDuplicates(bm) && FreshIn(bm, s1, sb)
    ensures var ms := [Label(ForCond, s.forIndex), Label(ForCode, s.forIndex)] + bm + [Label(EndFor, s.forIndex)];
      NoDuplicates(ms) && FreshIn(ms, s, sb)
  {
  }

  /**
   * In a compiled program no label is placed twice, so no two label lines
   * have the same text, and every branch goes to a label that is placed.
   */
  lemma ProgramLabelled(ast: Tree)
    requires Compilable(ast)
    ensures var ms := Marks(ProgramGen(ast).lines);
      NoDuplicates(ms) &&
      (forall i, j :: 0 <= i < j < |ms| ==> LabelName(ms[i]) != LabelName(ms[j]))
    ensures forall l :: l in AllTargets(ProgramGen(ast).lines) ==> Mark(l) in ProgramGen(ast).lines
  {
    var body := CodeGen(ast.children[1], Initial);
    var lines := ProgramGen(ast).lines;
    CodeLabelled(ast.children[1], Initial);
    LabelsOfLine(Begin);
    LabelsOfLine(End);
    LabelsAppend([Begin], body.lines);
    LabelsAppend([Begin] + body.lines, [End]);
    var ms := Marks(lines);
    forall i, j | 0 <= i < j < |ms|
      ensures LabelName(ms[i]) != LabelName(ms[j])
    {
      LabelNameInjective(ms[i], ms[j]);
    }
    forall l | l in AllTargets(lines)
      ensures Mark(l) in lines
    {
      MarkPlaced(lines, l);
    }
  }

  /** A label among the marks is placed by a Mark line. */
  lemma MarkPlaced(lines: seq<Line>, l: Label)
    requires l in Marks(lines)
    ensures Mark(l) in lines
  {
    MarkPlacedFrom(lines, 0, l);
  }

  lemma {:induction false} MarkPlacedFrom(lines: seq<Line>, k: nat, l: Label)
    requires k <= |lines| && l in MarksFrom(lines, k)
    ensures Mark(l) in lines[k..]
    decreases |lines| - k
  {
    if lines[k] != Mark(l) {
      MarkPlacedFrom(lines, k + 1, l);
      assert lines[k + 1..] == lines[k..][1..];
    }
  }
}
