// The register-threading convention of the code generator
// (src/Compiler.java:373-418, :429-445, :485-492): unnamed registers are
// defined in increasing order without gaps, and none is read before it is
// defined. `operate` leaves its result in %unnamedVar without advancing the
// counter; each caller takes that register and advances the counter once.
module CompilerRegisters {
  import opened Symbols
  import opened Trees
  import opened LlvmIr
  import opened CompilerSpec

  /**
   * The lines define exactly the registers lo, ..., hi - 1, in that order,
   * and read only registers from lo on that are defined before them.
   */
  predicate Threaded(lines: seq<Line>, lo: nat, hi: nat)
  {
    Runs(lines, lo, lo, hi)
  }

  lemma ThreadedAppend(a: seq<Line>, b: seq<Line>, lo: nat, mid: nat, hi: nat)
    requires Threaded(a, lo, mid) && Threaded(b, mid, hi)
    ensures Threaded(a + b, lo, hi) && lo <= mid <= hi
  {
    RunsOrdered(a, lo, lo, mid);
    RunsOrdered(b, mid, mid, hi);
    RunsLower(b, lo, mid, mid, hi);
    RunsAppend(a, b, lo, lo, mid, hi);
  }

  /** One more line, reading registers already defined and defining the next, if any. */
  lemma RunsLine(a: seq<Line>, line: Line, lo: nat, start: nat, hi: nat)
    requires Runs(a, lo, start, hi) && ReadsIn(line, lo, hi) && (Defines(line) ==> line.dst == hi)
    ensures Runs(a + [line], lo, start, if Defines(line) then hi + 1 else hi)
  {
    var next := if Defines(line) then hi + 1 else hi;
    assert Runs([line], lo, hi, next) by {
      assert [line][1..] == [];
    }
    RunsAppend(a, [line], lo, start, hi, next);
  }

  /** A line that defines nothing and reads only registers in [lo, hi). */
  predicate Passive(line: Line, lo: nat, hi: nat)
  {
    !Defines(line) && ReadsIn(line, lo, hi)
  }

  /** More lines that define nothing and read only registers already defined. */
  lemma {:induction false} RunsTail(a: seq<Line>, q: seq<Line>, lo: nat, start: nat, hi: nat)
    requires Runs(a, lo, start, hi)
    requires forall i :: 0 <= i < |q| ==> Passive(q[i], lo, hi)
    ensures Runs(a + q, lo, start, hi)
    decreases |q|
  {
    if q == [] {
      assert a + q == a;
    } else {
      RunsLine(a, q[0], lo, start, hi);
      assert a + q == (a + [q[0]]) + q[1..];
      RunsTail(a + [q[0]], q[1..], lo, start, hi);
    }
  }

  /** Lines that neither define nor read a register, put in front. */
  lemma QuietBefore(q: seq<Line>, a: seq<Line>, lo: nat, hi: nat)
    requires Threaded(a, lo, hi)
    requires forall i :: 0 <= i < |q| ==> Passive(q[i], lo, lo)
    ensures Threaded(q + a, lo, hi)
  {
    assert Threaded([], lo, lo);
    RunsTail([], q, lo, lo, lo);
    assert [] + q == q;
    ThreadedAppend(q, a, lo, lo, hi);
  }

  /** Registers an operator's operands consume, from the i-th operand on. */
  function TempsFrom(t: Tree, i: nat): nat
    requires !IsVariable(t) && Evaluable(t) && i <= OperandCount(t.symbol.unit.value)
    decreases t, 0, OperandCount(t.symbol.unit.value) - i
  {
    if i == OperandCount(t.symbol.unit.value) then 0
    else Cost(t.children[i]) + TempsFrom(t, i + 1)
  }

  /** Registers one operand consumes: none for a literal, its own and its temporaries' otherwise. */
  function Cost(c: Tree): nat
    requires OperandOk(c)
    decreases c, 2, 0
  {
    if IsNumber(c) then 0 else Temps(c) + 1
  }

  /** Registers `operate` consumes below the one holding its result. */
  function Temps(t: Tree): nat
    requires Evaluable(t)
    decreases t, 1, 0
  {
    if IsVariable(t) then 0 else TempsFrom(t, 0)
  }

  // The counter: `operate` advances it by Temps(t), an operand by Cost(c).
  // (The other counters and the variable list are untouched: see the
  // contracts of OperateGen, OperandsGen and OperandGen.)

  lemma {:induction false} OperateCounter(t: Tree, s: State)
    requires Evaluable(t)
    ensures OperateGen(t, s).state.unnamedVar == s.unnamedVar + Temps(t)
    decreases t, 2, 0
  {
    if !IsVariable(t) {
      OperandsCounter(t, 0, s);
    }
  }

  lemma {:induction false} OperandsCounter(t: Tree, i: nat, s: State)
    requires !IsVariable(t) && Evaluable(t) && i <= OperandCount(t.symbol.unit.value)
    ensures OperandsGen(t, i, s).state.unnamedVar == s.unnamedVar + TempsFrom(t, i)
    decreases t, 1, OperandCount(t.symbol.unit.value) - i
  {
    if i < OperandCount(t.symbol.unit.value) {
      var first := OperandGen(t.children[i], s);
      OperandCounter(t.children[i], s);
      OperandsCounter(t, i + 1, first.state);
    }
  }

  /**
   * A literal operand is an immediate and consumes no register; any other
   * operand is a register and consumes at least that one.
   */
  lemma {:induction false} OperandCounter(c: Tree, s: State)
    requires OperandOk(c)
    ensures OperandGen(c, s).state.unnamedVar == s.unnamedVar + Cost(c)
    ensures Cost(c) == 0 <==> IsNumber(c)
    ensures IsNumber(c) <==> OperandGen(c, s).operands[0].Imm?
    decreases c, 3, 0
  {
    if !IsNumber(c) {
      OperateCounter(c, s);
    }
  }

  // Threading: the lines define the registers they consume, in order, and
  // read none before it is defined.

  /**
   * `operate` defines Temps(t) + 1 consecutive registers from %unnamedVar,
   * the last holding its result, though it advances the counter by Temps(t)
   * only: the result register is left pending for the caller.
   */
  lemma {:induction false} OperateThreaded(t: Tree, s: State)
    requires Evaluable(t)
    ensures Threaded(OperateGen(t, s).lines, s.unnamedVar, s.unnamedVar + Temps(t) + 1)
    decreases t, 2, 0
  {
    if IsVariable(t) {
      RunsLine([], Load(s.unnamedVar, Name(t)), s.unnamedVar, s.unnamedVar, s.unnamedVar);
      assert OperateGen(t, s).lines == [] + [Load(s.unnamedVar, Name(t))];
    } else {
      OperandsCounter(t, 0, s);
      OperandsThreaded(t, 0, s);
      OperandsWithin(t, 0, s);
      OperatorLine(t, s);
    }
  }

  /** The operator's own line reads only its operands' registers and defines the next one. */
  lemma OperatorLine(t: Tree, s: State)
    requires !IsVariable(t) && Evaluable(t)
    requires var ops := OperandsGen(t, 0, s);
      ops.state.unnamedVar == s.unnamedVar + TempsFrom(t, 0) &&
      Threaded(ops.lines, s.unnamedVar, ops.state.unnamedVar) &&
      forall j :: 0 <= j < |ops.operands| ==> OperandIn(ops.operands[j], s.unnamedVar, ops.state.unnamedVar)
    ensures Threaded(OperateGen(t, s).lines, s.unnamedVar, s.unnamedVar + TempsFrom(t, 0) + 1)
  {
    var ops := OperandsGen(t, 0, s);
    OperationUnfold(t, s, ops);
    RunsLine(ops.lines, LastLine(t, ops), s.unnamedVar, s.unnamedVar, ops.state.unnamedVar);
  }

  lemma {:induction false} OperandsThreaded(t: Tree, i: nat, s: State)
    requires !IsVariable(t) && Evaluable(t) && i <= OperandCount(t.symbol.unit.value)
    ensures Threaded(OperandsGen(t, i, s).lines, s.unnamedVar, s.unnamedVar + TempsFrom(t, i))
    decreases t, 1, OperandCount(t.symbol.unit.value) - i
  {
    if i < OperandCount(t.symbol.unit.value) {
      var first := OperandGen(t.children[i], s);
      OperandCounter(t.children[i], s);
      OperandThreaded(t.children[i], s);
      OperandsThreaded(t, i + 1, first.state);
      var rest := OperandsGen(t, i + 1, first.state);
      OperandsUnfold(t, i, s, first, rest);
      JoinOperands(first, rest, OperandsGen(t, i, s), s.unnamedVar, first.state.unnamedVar, s.unnamedVar + TempsFrom(t, i));
    } else {
      OperandsEnd(t, s);
    }
  }

  lemma JoinOperands(first: Operands, rest: Operands, both: Operands, lo: nat, mid: nat, hi: nat)
    requires Threaded(first.lines, lo, mid) && Threaded(rest.lines, mid, hi)
    requires both.lines == first.lines + rest.lines
    ensures Threaded(both.lines, lo, hi)
  {
    ThreadedAppend(first.lines, rest.lines, lo, mid, hi);
  }

  lemma {:induction false} OperandThreaded(c: Tree, s: State)
    requires OperandOk(c)
    ensures Threaded(OperandGen(c, s).lines, s.unnamedVar, s.unnamedVar + Cost(c))
    decreases c, 3, 0
  {
    if IsNumber(c) {
      assert OperandGen(c, s).lines == [];
    } else {
      OperateThreaded(c, s);
    }
  }

  // Operands: every register an operand names is one its own lines defined.

  lemma {:induction false} OperandsWithin(t: Tree, i: nat, s: State)
    requires !IsVariable(t) && Evaluable(t) && i <= OperandCount(t.symbol.unit.value)
    ensures forall j :: 0 <= j < OperandCount(t.symbol.unit.value) - i ==>
      OperandIn(OperandsGen(t, i, s).operands[j], s.unnamedVar, s.unnamedVar + TempsFrom(t, i))
    decreases OperandCount(t.symbol.unit.value) - i
  {
    if i < OperandCount(t.symbol.unit.value) {
      var first := OperandGen(t.children[i], s);
      OperandCounter(t.children[i], s);
      OperandWithin(t.children[i], s);
      OperandsWithin(t, i + 1, first.state);
      var rest := OperandsGen(t, i + 1, first.state);
      OperandsUnfold(t, i, s, first, rest);
      OperandsIn(first.operands, rest.operands, s.unnamedVar, first.state.unnamedVar, s.unnamedVar + TempsFrom(t, i));
    }
  }

  lemma OperandsIn(first: seq<Operand>, rest: seq<Operand>, lo: nat, mid: nat, hi: nat)
    requires |first| == 1 && OperandIn(first[0], lo, mid) && lo <= mid <= hi
    requires forall j :: 0 <= j < |rest| ==> OperandIn(rest[j], mid, hi)
    ensures forall j :: 0 <= j < |first + rest| ==> OperandIn((first + rest)[j], lo, hi)
  {
  }

  lemma OperandWithin(c: Tree, s: State)
    requires OperandOk(c)
    ensures OperandIn(OperandGen(c, s).operands[0], s.unnamedVar, s.unnamedVar + Cost(c))
  {
    if !IsNumber(c) {
      OperateCounter(c, s);
    }
  }

  /** An operand lowered: its lines define [lo, hi) in order and it names one of them, if any. */
  predicate Lowered(r: Operands, lo: nat, hi: nat)
  {
    r.state.unnamedVar == hi && Threaded(r.lines, lo, hi) && |r.operands| == 1 && OperandIn(r.operands[0], lo, hi)
  }

  lemma OperandLowered(c: Tree, s: State)
    requires OperandOk(c)
    ensures Lowered(OperandGen(c, s), s.unnamedVar, s.unnamedVar + Cost(c))
  {
    OperandCounter(c, s);
    OperandThreaded(c, s);
    OperandWithin(c, s);
  }

  // Statements: each defines the registers from the counter's value before
  // it to its value after it, in order.

  lemma DeclarePassive(name: string, s: State, n: nat)
    ensures forall i :: 0 <= i < |Declare(name, s).lines| ==> Passive(Declare(name, s).lines[i], n, n)
  {
  }

  lemma AssignThreaded(t: Tree, s: State)
    requires AssignOk(t)
    ensures AssignGen(t, s).state.unnamedVar == s.unnamedVar + Cost(t.children[1])
    ensures Threaded(AssignGen(t, s).lines, s.unnamedVar, s.unnamedVar + Cost(t.children[1]))
  {
    var name := Name(t.children[0]);
    var d := Declare(name, s);
    var v := OperandGen(t.children[1], d.state);
    OperandLowered(t.children[1], d.state);
    DeclarePassive(name, s, s.unnamedVar);
    AssignParts(d.lines, v, name, s.unnamedVar);
  }

  /** Storing an operand reads only registers the operand's lines defined. */
  lemma AssignParts(q: seq<Line>, v: Operands, name: string, lo: nat)
    requires forall i :: 0 <= i < |q| ==> Passive(q[i], lo, lo)
    requires Lowered(v, lo, v.state.unnamedVar)
    ensures Threaded(q + v.lines + [Store(v.operands[0], name)], lo, v.state.unnamedVar)
  {
    var store := Store(v.operands[0], name);
    RunsLine(v.lines, store, lo, lo, v.state.unnamedVar);
    QuietBefore(q, v.lines + [store], lo, v.state.unnamedVar);
    assert q + v.lines + [store] == q + (v.lines + [store]);
  }

  lemma ReadThreaded(t: Tree, s: State)
    requires |t.children| >= 1
    ensures Threaded(ReadGen(t, s).lines, s.unnamedVar, s.unnamedVar + 1)
  {
    var name := Name(t.children[0]);
    var d := Declare(name, s);
    var r := s.unnamedVar;
    RunsLine([], ReadInt(r), r, r, r);
    assert [] + [ReadInt(r)] == [ReadInt(r)];
    RunsLine([ReadInt(r)], Store(Reg(r), name), r, r, r + 1);
    assert [ReadInt(r)] + [Store(Reg(r), name)] == [ReadInt(r), Store(Reg(r), name)];
    DeclarePassive(name, s, r);
    QuietBefore(d.lines, [ReadInt(r), Store(Reg(r), name)], r, r + 1);
  }

  lemma PrintThreaded(t: Tree, s: State)
    requires |t.children| >= 1
    ensures Threaded(PrintGen(t, s).lines, s.unnamedVar, s.unnamedVar + 1)
  {
    var r := s.unnamedVar;
    var load := Load(r, Name(t.children[0]));
    RunsLine([], load, r, r, r);
    assert [] + [load] == [load];
    RunsLine([load], Println(r), r, r, r + 1);
    assert [load] + [Println(r)] == PrintGen(t, s).lines;
  }

  /** A branch in the middle of a block: the lines around it thread on. */
  lemma Branching(a: seq<Line>, q: seq<Line>, b: seq<Line>, lo: nat, mid: nat, hi: nat)
    requires Threaded(a, lo, mid) && Threaded(b, mid, hi)
    requires forall i :: 0 <= i < |q| ==> Passive(q[i], lo, mid)
    ensures Threaded(a + q + b, lo, hi)
  {
    RunsTail(a, q, lo, lo, mid);
    ThreadedAppend(a + q, b, lo, mid, hi);
  }

  lemma {:induction false} InstructionThreaded(t: Tree, s: State)
    requires StatementOk(t)
    ensures Threaded(InstructionGen(t, s).lines, s.unnamedVar, InstructionGen(t, s).state.unnamedVar)
    decreases t, 3, 0
  {
    match KindOf(t)
    case AssignInstr => AssignThreaded(t, s);
    case ReadInstr => ReadThreaded(t, s);
    case PrintInstr => PrintThreaded(t, s);
    case WhileInstr => WhileThreaded(t, s.whileIndex, s);
    case ForInstr => ForThreaded(t, s.forIndex, s);
    case IfInstr => IfThreaded(t, s.ifIndex, s);
    case _ =>
  }

  lemma {:induction false} CodeThreaded(code: Tree, s: State)
    requires CodeOk(code)
    ensures Threaded(CodeGen(code, s).lines, s.unnamedVar, CodeGen(code, s).state.unnamedVar)
    decreases code, 2, 0
  {
    InstructionsThreaded(code, 0, s);
  }

  lemma {:induction false} InstructionsThreaded(code: Tree, i: nat, s: State)
    requires CodeOk(code) && i <= |code.children|
    ensures Threaded(InstructionsGen(code, i, s).lines, s.unnamedVar, InstructionsGen(code, i, s).state.unnamedVar)
    decreases code, 1, |code.children| - i
  {
    if i < |code.children| {
      var g := InstructionGen(code.children[i], s);
      var rest := InstructionsGen(code, i + 1, g.state);
      InstructionThreaded(code.children[i], s);
      InstructionsThreaded(code, i + 1, g.state);
      Branching(g.lines, [Blank], rest.lines, s.unnamedVar, g.state.unnamedVar, rest.state.unnamedVar);
    }
  }

  lemma {:induction false} IfThreaded(t: Tree, index: nat, s: State)
    requires IfOk(t)
    ensures Threaded(IfGen(t, index, s).lines, s.unnamedVar, IfGen(t, index, s).state.unnamedVar)
    decreases t, 2, 0
  {
    if |t.children| == 3 {
      IfElseThreaded(t, index, s);
    } else if |t.children| >= 2 {
      IfEndThreaded(t, index, s);
    }
  }

  /** A conditional with an else-part. */
  lemma {:induction false} IfElseThreaded(t: Tree, index: nat, s: State)
    requires IfOk(t) && |t.children| == 3
    ensures Threaded(IfGen(t, index, s).lines, s.unnamedVar, IfGen(t, index, s).state.unnamedVar)
    decreases t, 1, 0
  {
    var ch := t.children;
    var s1 := State(s.unnamedVar, s.ifIndex + 1, s.whileIndex, s.forIndex, s.variables);
    var c := OperateGen(ch[0], s1);
    var cond := c.state.unnamedVar;
    var body := CodeGen(ch[1], WithRegister(c.state, cond + 1));
    var other := CodeGen(ch[2], body.state);
    OperateCounter(ch[0], s1);
    OperateThreaded(ch[0], s1);
    CodeThreaded(ch[1], WithRegister(c.state, cond + 1));
    CodeThreaded(ch[2], body.state);
    IfElseUnfold(t, index, s, c, cond, body, other);
    IfElse(c.lines, body.lines, other.lines, IfGen(t, index, s).lines, cond, index,
      s.unnamedVar, body.state.unnamedVar, other.state.unnamedVar);
  }

  /** A conditional without an else-part. */
  lemma {:induction false} IfEndThreaded(t: Tree, index: nat, s: State)
    requires IfOk(t) && 2 <= |t.children| != 3
    ensures Threaded(IfGen(t, index, s).lines, s.unnamedVar, IfGen(t, index, s).state.unnamedVar)
    decreases t, 1, 0
  {
    var ch := t.children;
    var s1 := State(s.unnamedVar, s.ifIndex + 1, s.whileIndex, s.forIndex, s.variables);
    var c := OperateGen(ch[0], s1);
    var cond := c.state.unnamedVar;
    var body := CodeGen(ch[1], WithRegister(c.state, cond + 1));
    OperateCounter(ch[0], s1);
    OperateThreaded(ch[0], s1);
    CodeThreaded(ch[1], WithRegister(c.state, cond + 1));
    IfThenUnfold(t, index, s, c, cond, body);
    IfEnd(c.lines, body.lines, IfGen(t, index, s).lines, cond, index, s.unnamedVar, body.state.unnamedVar);
  }

  /** The condition, the branch on it, and the then-code. */
  lemma IfThen(c: seq<Line>, body: seq<Line>, cond: nat, ifFalse: Label, index: nat, lo: nat, hi: nat)
    requires Threaded(c, lo, cond + 1) && lo <= cond && Threaded(body, cond + 1, hi)
    ensures Threaded(c + [CondBr(cond, Label(IfCode, index), ifFalse), Mark(Label(IfCode, index))] + body
      + [Br(Label(EndIf, index))], lo, hi)
  {
    var test := [CondBr(cond, Label(IfCode, index), ifFalse), Mark(Label(IfCode, index))];
    Branching(c, test, body, lo, cond + 1, hi);
    RunsTail(c + test + body, [Br(Label(EndIf, index))], lo, lo, hi);
  }

  lemma IfElse(c: seq<Line>, body: seq<Line>, other: seq<Line>, lines: seq<Line>, cond: nat, index: nat,
               lo: nat, mid: nat, hi: nat)
    requires Threaded(c, lo, cond + 1) && lo <= cond && Threaded(body, cond + 1, mid) && Threaded(other, mid, hi)
    requires lines == c + [CondBr(cond, Label(IfCode, index), Label(ElseCode, index)), Mark(Label(IfCode, index))]
      + body + [Br(Label(EndIf, index))] + [Mark(Label(ElseCode, index))] + other
      + [Br(Label(EndIf, index)), Mark(Label(EndIf, index))]
    ensures Threaded(lines, lo, hi)
  {
    IfThen(c, body, cond, Label(ElseCode, index), index, lo, mid);
    var thenPart := c + [CondBr(cond, Label(IfCode, index), Label(ElseCode, index)), Mark(Label(IfCode, index))]
      + body + [Br(Label(EndIf, index))];
    Branching(thenPart, [Mark(Label(ElseCode, index))], other, lo, mid, hi);
    RunsTail(thenPart + [Mark(Label(ElseCode, index))] + other, [Br(Label(EndIf, index)), Mark(Label(EndIf, index))], lo, lo, hi);
  }

  lemma IfEnd(c: seq<Line>, body: seq<Line>, lines: seq<Line>, cond: nat, index: nat, lo: nat, hi: nat)
    requires Threaded(c, lo, cond + 1) && lo <= cond && Threaded(body, cond + 1, hi)
    requires lines == c + [CondBr(cond, Label(IfCode, index), Label(EndIf, index)), Mark(Label(IfCode, index))]
      + body + [Br(Label(EndIf, index))] + [Mark(Label(EndIf, index))]
    ensures Threaded(lines, lo, hi)
  {
    IfThen(c, body, cond, Label(EndIf, index), index, lo, hi);
    var thenPart := c + [CondBr(cond, Label(IfCode, index), Label(EndIf, index)), Mark(Label(IfCode, index))]
      + body + [Br(Label(EndIf, index))];
    RunsTail(thenPart, [Mark(Label(EndIf, index))], lo, lo, hi);
  }

  lemma {:induction false} WhileThreaded(t: Tree, index: nat, s: State)
    requires WhileOk(t)
    ensures Threaded(WhileGen(t, index, s).lines, s.unnamedVar, WhileGen(t, index, s).state.unnamedVar)
    decreases t, 2, 0
  {
    var ch := t.children;
    if |ch| >= 2 {
      var s1 := State(s.unnamedVar, s.ifIndex, s.whileIndex + 1, s.forIndex, s.variables);
      var c := OperateGen(ch[0], s1);
      var cond := c.state.unnamedVar;
      var body := CodeGen(ch[1], WithRegister(c.state, cond + 1));
      OperateCounter(ch[0], s1);
      OperateThreaded(ch[0], s1);
      CodeThreaded(ch[1], WithRegister(c.state, cond + 1));
      WhileUnfold(t, index, s, c, cond, body);
      WhileParts(c.lines, body.lines, WhileGen(t, index, s).lines, cond, index, s.unnamedVar, body.state.unnamedVar);
    }
  }

  lemma WhileParts(c: seq<Line>, body: seq<Line>, lines: seq<Line>, cond: nat, index: nat, lo: nat, hi: nat)
    requires Threaded(c, lo, cond + 1) && lo <= cond && Threaded(body, cond + 1, hi)
    requires lines == [Br(Label(WhileCond, index)), Mark(Label(WhileCond, index))] + c
      + [CondBr(cond, Label(WhileCode, index), Label(EndWhile, index)), Mark(Label(WhileCode, index))]
      + body + [Br(Label(WhileCond, index)), Mark(Label(EndWhile, index))]
    ensures Threaded(lines, lo, hi)
  {
    var head := [Br(Label(WhileCond, index)), Mark(Label(WhileCond, index))];
    QuietBefore(head, c, lo, cond + 1);
    var test := [CondBr(cond, Label(WhileCode, index), Label(EndWhile, index)), Mark(Label(WhileCode, index))];
    Branching(head + c, test, body, lo, cond + 1, hi);
    RunsTail(head + c + test + body, [Br(Label(WhileCond, index)), Mark(Label(EndWhile, index))], lo, lo, hi);
  }

  lemma {:induction false} ForThreaded(t: Tree, index: nat, s: State)
    requires ForOk(t)
    ensures Threaded(ForGen(t, index, s).lines, s.unnamedVar, ForGen(t, index, s).state.unnamedVar)
    decreases t, 2, 0
  {
    var ch := t.children;
    if |ch| >= 5 {
      var s1 := State(s.unnamedVar, s.ifIndex, s.whileIndex, s.forIndex + 1, s.variables);
      var init := AssignGen(t, s1);
      var i := init.state.unnamedVar;
      AssignThreaded(t, s1);
      var test := ForTestGen(t, index, init.state);
      ForTestThreaded(t, index, init.state);
      var body := CodeGen(ch[4], test.state);
      CodeThreaded(ch[4], test.state);
      RunsOrdered(body.lines, test.state.unnamedVar, test.state.unnamedVar, body.state.unnamedVar);
      var step := ForStepGen(t, index, i, body.state);
      ForStepRuns(t, index, i, body.state);
      ForUnfold(t, index, s, init, test, body, step);
      ForParts(init.lines, test.lines, body.lines, step.lines, ForGen(t, index, s).lines,
        s.unnamedVar, i, test.state.unnamedVar, body.state.unnamedVar, step.state.unnamedVar);
    }
  }

  lemma ForParts(init: seq<Line>, test: seq<Line>, body: seq<Line>, step: seq<Line>, lines: seq<Line>,
                 lo: nat, i: nat, mid: nat, hi: nat, end: nat)
    requires Threaded(init, lo, i) && Threaded(test, i, mid) && Threaded(body, mid, hi)
    requires Runs(step, i, hi, end)
    requires lines == init + test + body + step
    ensures Threaded(lines, lo, end)
  {
    ThreadedAppend(init, test, lo, i, mid);
    ThreadedAppend(init + test, body, lo, mid, hi);
    RunsLower(step, lo, i, hi, end);
    RunsAppend(init + test + body, step, lo, lo, hi, end);
  }

  /**
   * The loop test defines register i (the variable's value), the bound's
   * registers, and the comparison's.
   */
  lemma ForTestThreaded(t: Tree, index: nat, s: State)
    requires |t.children| >= 5 && IsVariable(t.children[0]) && OperandOk(t.children[3])
    ensures Threaded(ForTestGen(t, index, s).lines, s.unnamedVar, ForTestGen(t, index, s).state.unnamedVar)
    ensures ForTestGen(t, index, s).state.unnamedVar > s.unnamedVar
  {
    var ch := t.children;
    var i := s.unnamedVar;
    var max := OperandGen(ch[3], WithRegister(s, i + 1));
    OperandLowered(ch[3], WithRegister(s, i + 1));
    ForTestParts(max, ForTestGen(t, index, s).lines, Name(ch[0]), index, i);
  }

  lemma ForTestParts(max: Operands, lines: seq<Line>, name: string, index: nat, i: nat)
    requires Lowered(max, i + 1, max.state.unnamedVar)
    requires var cond := max.state.unnamedVar;
      lines == [Br(Label(ForCond, index)), Mark(Label(ForCond, index)), Load(i, name)] + max.lines
        + [Op(cond, IcmpSlt, 32, Reg(i), max.operands[0]),
           CondBr(cond, Label(ForCode, index), Label(EndFor, index)), Mark(Label(ForCode, index))]
    ensures Threaded(lines, i, max.state.unnamedVar + 1)
  {
    var cond := max.state.unnamedVar;
    var jump := [Br(Label(ForCond, index)), Mark(Label(ForCond, index))];
    RunsTail([], jump, i, i, i);
    RunsLine([] + jump, Load(i, name), i, i, i);
    var head := [Br(Label(ForCond, index)), Mark(Label(ForCond, index)), Load(i, name)];
    assert [] + jump + [Load(i, name)] == head;
    ThreadedAppend(head, max.lines, i, i + 1, cond);
    var compare := Op(cond, IcmpSlt, 32, Reg(i), max.operands[0]);
    RunsLine(head + max.lines, compare, i, i, cond);
    var branch := [CondBr(cond, Label(ForCode, index), Label(EndFor, index)), Mark(Label(ForCode, index))];
    RunsTail(head + max.lines + [compare], branch, i, i, cond + 1);
    assert head + max.lines + [compare] + branch == lines;
  }

  /**
   * The loop step reads register i and defines the step's registers and the
   * sum's, from the counter's value on.
   */
  lemma ForStepRuns(t: Tree, index: nat, i: nat, s: State)
    requires |t.children| >= 5 && OperandOk(t.children[2]) && i < s.unnamedVar
    ensures Runs(ForStepGen(t, index, i, s).lines, i, s.unnamedVar, ForStepGen(t, index, i, s).state.unnamedVar)
  {
    var ch := t.children;
    var step := OperandGen(ch[2], s);
    OperandLowered(ch[2], s);
    ForStepParts(step, ForStepGen(t, index, i, s).lines, Name(ch[0]), index, i, s.unnamedVar);
  }

  lemma ForStepParts(step: Operands, lines: seq<Line>, name: string, index: nat, i: nat, lo: nat)
    requires i < lo && Lowered(step, lo, step.state.unnamedVar)
    requires var p := step.state.unnamedVar;
      lines == step.lines
          + [Op(p, Add, 32, Reg(i), step.operands[0]), Store(Reg(p), name),
             Br(Label(ForCond, index)), Mark(Label(EndFor, index))]
    ensures Runs(lines, i, lo, step.state.unnamedVar + 1)
  {
    var p := step.state.unnamedVar;
    RunsLower(step.lines, i, lo, lo, p);
    var add := Op(p, Add, 32, Reg(i), step.operands[0]);
    RunsOrdered(step.lines, lo, lo, p);
    RunsLine(step.lines, add, i, lo, p);
    var rest := [Store(Reg(p), name), Br(Label(ForCond, index)), Mark(Label(EndFor, index))];
    RunsTail(step.lines + [add], rest, i, lo, p + 1);
    assert step.lines + [add] + rest == lines;
  }

  /**
   * A compiled program numbers its unnamed registers %0, %1, ... in order of
   * definition, without gaps, and reads each only after defining it, as
   * LLVM requires of unnamed values.
   */
  lemma ProgramThreaded(ast: Tree)
    requires Compilable(ast)
    ensures Threaded(ProgramGen(ast).lines, 0, ProgramGen(ast).state.unnamedVar)
  {
    var body := CodeGen(ast.children[1], Initial);
    CodeThreaded(ast.children[1], Initial);
    QuietBefore([Begin], body.lines, 0, body.state.unnamedVar);
    RunsTail([Begin] + body.lines, [End], 0, 0, body.state.unnamedVar);
  }
}
