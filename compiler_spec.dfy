// What the code generator writes (src/Compiler.java), as functions of the
// AST node and the generator's counters: each returns the lines written and
// the counters afterwards. The class in compiler.dfy is proved to follow
// these step for step.
module CompilerSpec {
  import opened Strings
  import opened Symbols
  import opened Trees
  import opened LlvmIr

  /** The generator's counters and its list of allocated variables. */
  datatype State = State(unnamedVar: nat, ifIndex: nat, whileIndex: nat, forIndex: nat, variables: seq<string>)

  /** Lines written and the state afterwards. */
  datatype Gen = Gen(lines: seq<Line>, state: State)

  /** Lines written, the state afterwards, and the operand(s) they produced. */
  datatype Operands = Operands(lines: seq<Line>, state: State, operands: seq<Operand>)

  const Initial: State := State(0, 0, 0, 0, [])

  /** The text of a node's value, as Java's string conversion gives it. */
  function Name(t: Tree): string
  {
    ValueString(t.symbol.value)
  }

  predicate IsNumber(t: Tree)
  {
    t.symbol.unit == Some(NUMBER)
  }

  predicate IsVariable(t: Tree)
  {
    t.symbol.unit == Some(VARNAME)
  }

  predicate IsOperator(u: LexicalUnit)
  {
    u in {PLUS, MINUS, TIMES, DIVIDE, AND, OR, NOT, EQUAL, DIFFERENT, GREATER, GREATER_EQUAL, SMALLER, SMALLER_EQUAL}
  }

  /**
   * The LLVM instruction for a binary operator token (`not` is written as a
   * subtraction from 1 instead, see `Negate`).
   */
  function OpcodeOf(u: LexicalUnit): Opcode
    requires IsOperator(u) && u != NOT
  {
    match u
    case PLUS => Add
    case MINUS => Sub
    case TIMES => Mul
    case DIVIDE => SDiv
    case AND => And
    case OR => Or
    case EQUAL => IcmpEq
    case DIFFERENT => IcmpNe
    case GREATER => IcmpSgt
    case GREATER_EQUAL => IcmpSge
    case SMALLER => IcmpSlt
    case SMALLER_EQUAL => IcmpSle
  }

  /** Operand width: i1 for the boolean connectives, i32 otherwise. */
  function Width(u: LexicalUnit): nat
  {
    if u == AND || u == OR || u == NOT then 1 else 32
  }

  /** Number of operands an operator reads: one for `not`, two otherwise. */
  function OperandCount(u: LexicalUnit): nat
  {
    if u == NOT then 1 else 2
  }

  /** A literal the generator can print: a NUMBER token holding an integer. */
  predicate IsLiteral(t: Tree)
  {
    IsNumber(t) && t.symbol.value.Int?
  }

  /**
   * A node `operate` can lower: a variable, or an operator whose operands
   * exist and are each a literal or, recursively, lowerable.
   */
  predicate Evaluable(t: Tree)
    decreases t
  {
    IsVariable(t) ||
    (t.symbol.unit.Some? && IsOperator(t.symbol.unit.value) &&
     |t.children| >= OperandCount(t.symbol.unit.value) &&
     forall i :: 0 <= i < OperandCount(t.symbol.unit.value) ==>
       IsLiteral(t.children[i]) || Evaluable(t.children[i]))
  }

  predicate OperandOk(t: Tree)
  {
    IsLiteral(t) || Evaluable(t)
  }

  function WithRegister(s: State, r: nat): State
  {
    State(r, s.ifIndex, s.whileIndex, s.forIndex, s.variables)
  }

  /**
   * `operate`: a variable is loaded into register %unnamedVar; an operator's
   * operands are lowered in order and the result is written to the register
   * %unnamedVar holds afterwards. The counter is not advanced for the result.
   */
  function OperateGen(t: Tree, s: State): (g: Gen)
    requires Evaluable(t)
    ensures g.state == WithRegister(s, g.state.unnamedVar) && g.state.unnamedVar >= s.unnamedVar
    decreases t, 2, 0
  {
    if IsVariable(t) then Gen([Load(s.unnamedVar, Name(t))], s)
    else
      var ops := OperandsGen(t, 0, s);
      Gen(ops.lines + [LastLine(t, ops)], ops.state)
  }

  /** The instruction `operation` ends with, on operands already lowered. */
  function LastLine(t: Tree, all: Operands): Line
    requires !IsVariable(t) && Evaluable(t)
    requires |all.operands| == OperandCount(t.symbol.unit.value)
  {
    var u := t.symbol.unit.value;
    var p := all.state.unnamedVar;
    if u == NOT then Negate(p, all.operands[0]) else Op(p, OpcodeOf(u), Width(u), all.operands[0], all.operands[1])
  }

  /** The operands of an operator from the i-th on, lowered in order (`operation`'s loop). */
  function OperandsGen(t: Tree, i: nat, s: State): (r: Operands)
    requires !IsVariable(t) && Evaluable(t) && i <= OperandCount(t.symbol.unit.value)
    ensures |r.operands| == OperandCount(t.symbol.unit.value) - i
    ensures r.state == WithRegister(s, r.state.unnamedVar) && r.state.unnamedVar >= s.unnamedVar
    decreases t, 1, OperandCount(t.symbol.unit.value) - i
  {
    if i == OperandCount(t.symbol.unit.value) then Operands([], s, [])
    else
      var first := OperandGen(t.children[i], s);
      var rest := OperandsGen(t, i + 1, first.state);
      Operands(first.lines + rest.lines, rest.state, first.operands + rest.operands)
  }

  /**
   * One operand: a literal is used as an immediate and costs nothing; any
   * other node is lowered and its register taken, advancing the counter once.
   */
  function OperandGen(c: Tree, s: State): (r: Operands)
    requires OperandOk(c)
    ensures |r.operands| == 1
    ensures r.state == WithRegister(s, r.state.unnamedVar) && r.state.unnamedVar >= s.unnamedVar
    decreases c, 3, 0
  {
    if IsNumber(c) then Operands([], s, [Imm(c.symbol.value.n)])
    else
      var g := OperateGen(c, s);
      Operands(g.lines, WithRegister(g.state, g.state.unnamedVar + 1), [Reg(g.state.unnamedVar)])
  }

  /** Allocates a variable the first time it is named. */
  function Declare(name: string, s: State): (g: Gen)
    ensures g.state == State(s.unnamedVar, s.ifIndex, s.whileIndex, s.forIndex, s.variables + Allocas(g.lines))
    ensures name in g.state.variables
  {
    if name in s.variables then Gen([], s)
    else
      assert AllocasFrom([Alloca(name)], 1) == [];
      Gen([Alloca(name)], State(s.unnamedVar, s.ifIndex, s.whileIndex, s.forIndex, s.variables + [name]))
  }

  /** `Assign`: child 0 names the variable, child 1 is the value stored in it. */
  function AssignGen(t: Tree, s: State): Gen
    requires AssignOk(t)
  {
    var name := Name(t.children[0]);
    var d := Declare(name, s);
    var v := OperandGen(t.children[1], d.state);
    Gen(d.lines + v.lines + [Store(v.operands[0], name)], v.state)
  }

  /** `Read`: the variable is allocated if new and given the value read. */
  function ReadGen(t: Tree, s: State): Gen
    requires |t.children| >= 1
  {
    var name := Name(t.children[0]);
    var d := Declare(name, s);
    var r := d.state.unnamedVar;
    Gen(d.lines + [ReadInt(r), Store(Reg(r), name)], WithRegister(d.state, r + 1))
  }

  /** `Print`: the variable is loaded and printed; it is never allocated here. */
  function PrintGen(t: Tree, s: State): Gen
    requires |t.children| >= 1
  {
    var r := s.unnamedVar;
    Gen([Load(r, Name(t.children[0])), Println(r)], WithRegister(s, r + 1))
  }

  /** The instructions `Code` tells apart by the node's label. */
  datatype Kind = AssignInstr | ReadInstr | PrintInstr | WhileInstr | ForInstr | IfInstr | OtherInstr

  /** The case of `Code`'s switch on the label's string that a node falls in. */
  function KindOf(t: Tree): Kind
  {
    match Name(t)
    case "<Assign>" => AssignInstr
    case "<Read>" => ReadInstr
    case "<Print>" => PrintInstr
    case "<While>" => WhileInstr
    case "<For>" => ForInstr
    case "<If>" => IfInstr
    case _ => OtherInstr
  }

  /** A well-formed instruction of a `<Code>` node, for the generator. */
  predicate StatementOk(t: Tree)
    decreases t, 1
  {
    t.symbol.value != Null &&
    match KindOf(t)
    case AssignInstr => AssignOk(t)
    case ReadInstr => |t.children| >= 1 && t.children[0].symbol.value != Null
    case PrintInstr => |t.children| >= 1 && t.children[0].symbol.value != Null
    case IfInstr => IfOk(t)
    case WhileInstr => WhileOk(t)
    case ForInstr => ForOk(t)
    case _ => true
  }

  /** An assignment names a variable and has an operand to store in it. */
  predicate AssignOk(t: Tree)
  {
    |t.children| >= 2 && t.children[0].symbol.value != Null && OperandOk(t.children[1])
  }

  /** A conditional without a body is skipped; otherwise its parts must lower. */
  predicate IfOk(t: Tree)
    decreases t, 0
  {
    var ch := t.children;
    |ch| < 2 || (Evaluable(ch[0]) && CodeOk(ch[1]) && (|ch| == 3 ==> CodeOk(ch[2])))
  }

  predicate WhileOk(t: Tree)
    decreases t, 0
  {
    var ch := t.children;
    |ch| < 2 || (Evaluable(ch[0]) && CodeOk(ch[1]))
  }

  /** A loop over [variable, from, by, to, body]; without a body it is skipped. */
  predicate ForOk(t: Tree)
    decreases t, 0
  {
    var ch := t.children;
    |ch| < 5 ||
    (IsVariable(ch[0]) && AssignOk(t) && OperandOk(ch[2]) && OperandOk(ch[3]) && CodeOk(ch[4]))
  }

  predicate CodeOk(code: Tree)
    decreases code, 2
  {
    forall i :: 0 <= i < |code.children| ==> StatementOk(code.children[i])
  }

  /** A program the generator lowers without failing: its child 1 is compilable code. */
  predicate Compilable(ast: Tree)
  {
    |ast.children| >= 2 && CodeOk(ast.children[1])
  }

  /** `Code`: each instruction lowered, followed by an empty line. */
  function CodeGen(code: Tree, s: State): Gen
    requires CodeOk(code)
    decreases code, 2, 0
  {
    InstructionsGen(code, 0, s)
  }

  function InstructionsGen(code: Tree, i: nat, s: State): Gen
    requires CodeOk(code) && i <= |code.children|
    decreases code, 1, |code.children| - i
  {
    if i == |code.children| then Gen([], s)
    else
      var g := InstructionGen(code.children[i], s);
      var rest := InstructionsGen(code, i + 1, g.state);
      Gen(g.lines + [Blank] + rest.lines, rest.state)
  }

  /** The dispatch on the instruction's label; an unknown label writes nothing. */
  function InstructionGen(t: Tree, s: State): Gen
    requires StatementOk(t)
    decreases t, 3, 0
  {
    match KindOf(t)
    case AssignInstr => AssignGen(t, s)
    case ReadInstr => ReadGen(t, s)
    case PrintInstr => PrintGen(t, s)
    case WhileInstr => WhileGen(t, s.whileIndex, s)
    case ForInstr => ForGen(t, s.forIndex, s)
    case IfInstr => IfGen(t, s.ifIndex, s)
    case _ => Gen([], s)
  }

  /**
   * `If`: skipped without a body; otherwise the condition is lowered and
   * branched on, to `elseCode` when there are three children and to `endif`
   * otherwise, and every arm ends with a branch to `endif`.
   */
  function IfGen(t: Tree, index: nat, s: State): Gen
    requires IfOk(t)
    decreases t, 2, 0
  {
    var ch := t.children;
    if |ch| < 2 then Gen([], s)
    else
      var s1 := State(s.unnamedVar, s.ifIndex + 1, s.whileIndex, s.forIndex, s.variables);
      var withElse := |ch| == 3;
      var c := OperateGen(ch[0], s1);
      var cond := c.state.unnamedVar;
      var ifFalse := if withElse then Label(ElseCode, index) else Label(EndIf, index);
      var body := CodeGen(ch[1], WithRegister(c.state, cond + 1));
      var thenPart := c.lines + [CondBr(cond, Label(IfCode, index), ifFalse), Mark(Label(IfCode, index))]
        + body.lines + [Br(Label(EndIf, index))];
      if withElse then
        var other := CodeGen(ch[2], body.state);
        Gen(thenPart + [Mark(Label(ElseCode, index))] + other.lines + [Br(Label(EndIf, index)), Mark(Label(EndIf, index))],
            other.state)
      else
        Gen(thenPart + [Mark(Label(EndIf, index))], body.state)
  }

  /** `While`: skipped without a body; otherwise the condition block, the body, and the exit label. */
  function WhileGen(t: Tree, index: nat, s: State): Gen
    requires WhileOk(t)
    decreases t, 2, 0
  {
    var ch := t.children;
    if |ch| < 2 then Gen([], s)
    else
      var s1 := State(s.unnamedVar, s.ifIndex, s.whileIndex + 1, s.forIndex, s.variables);
      var c := OperateGen(ch[0], s1);
      var cond := c.state.unnamedVar;
      var body := CodeGen(ch[1], WithRegister(c.state, cond + 1));
      Gen([Br(Label(WhileCond, index)), Mark(Label(WhileCond, index))] + c.lines
          + [CondBr(cond, Label(WhileCode, index), Label(EndWhile, index)), Mark(Label(WhileCode, index))]
          + body.lines + [Br(Label(WhileCond, index)), Mark(Label(EndWhile, index))],
          body.state)
  }

  /**
   * `For` over children [variable, from, by, to, body]: skipped without a
   * body; otherwise the variable is assigned its start value, compared with
   * `icmp slt` against the bound on each pass, and incremented by the step
   * after the body.
   */
  function ForGen(t: Tree, index: nat, s: State): Gen
    requires ForOk(t)
    decreases t, 2, 0
  {
    var ch := t.children;
    if |ch| < 5 then Gen([], s)
    else
      var s1 := State(s.unnamedVar, s.ifIndex, s.whileIndex, s.forIndex + 1, s.variables);
      var init := AssignGen(t, s1);
      var i := init.state.unnamedVar;
      var test := ForTestGen(t, index, init.state);
      var body := CodeGen(ch[4], test.state);
      var step := ForStepGen(t, index, i, body.state);
      Gen(init.lines + test.lines + body.lines + step.lines, step.state)
  }

  /**
   * The loop test: the variable is loaded into %unnamedVar (register i) and
   * compared with the bound; the loop is entered or left.
   */
  function ForTestGen(t: Tree, index: nat, s: State): Gen
    requires |t.children| >= 5 && IsVariable(t.children[0]) && OperandOk(t.children[3])
  {
    var ch := t.children;
    var i := s.unnamedVar;
    var max := OperandGen(ch[3], WithRegister(s, i + 1));
    var cond := max.state.unnamedVar;
    Gen([Br(Label(ForCond, index)), Mark(Label(ForCond, index)), Load(i, Name(ch[0]))] + max.lines
        + [Op(cond, IcmpSlt, 32, Reg(i), max.operands[0]),
           CondBr(cond, Label(ForCode, index), Label(EndFor, index)), Mark(Label(ForCode, index))],
        WithRegister(max.state, cond + 1))
  }

  /** The loop step: the step is added to register i and stored back in the variable. */
  function ForStepGen(t: Tree, index: nat, i: nat, s: State): Gen
    requires |t.children| >= 5 && OperandOk(t.children[2])
  {
    var ch := t.children;
    var step := OperandGen(ch[2], s);
    var p := step.state.unnamedVar;
    Gen(step.lines
        + [Op(p, Add, 32, Reg(i), step.operands[0]), Store(Reg(p), Name(ch[0])),
           Br(Label(ForCond, index)), Mark(Label(EndFor, index))],
        WithRegister(step.state, p + 1))
  }

  /** `compile`: the prologue, the program's code (its child 1), and the epilogue. */
  function ProgramGen(ast: Tree): Gen
    requires Compilable(ast)
  {
    var body := CodeGen(ast.children[1], Initial);
    Gen([Begin] + body.lines + [End], body.state)
  }

  // Each definition above unfolded once, with its parts given by name: the
  // proofs about the generator take these instead of the definitions.

  lemma InstructionsUnfold(code: Tree, i: nat, s: State, g: Gen, rest: Gen)
    requires CodeOk(code) && i < |code.children|
    requires g == InstructionGen(code.children[i], s)
    requires rest == InstructionsGen(code, i + 1, g.state)
    ensures InstructionsGen(code, i, s) == Gen(g.lines + [Blank] + rest.lines, rest.state)
  {
  }

  lemma InstructionsEnd(code: Tree, s: State)
    requires CodeOk(code)
    ensures InstructionsGen(code, |code.children|, s) == Gen([], s)
  {
  }

  lemma OperandsUnfold(t: Tree, i: nat, s: State, first: Operands, rest: Operands)
    requires !IsVariable(t) && Evaluable(t) && i < OperandCount(t.symbol.unit.value)
    requires first == OperandGen(t.children[i], s)
    requires rest == OperandsGen(t, i + 1, first.state)
    ensures OperandsGen(t, i, s) == Operands(first.lines + rest.lines, rest.state, first.operands + rest.operands)
  {
  }

  lemma OperandsEnd(t: Tree, s: State)
    requires !IsVariable(t) && Evaluable(t)
    ensures OperandsGen(t, OperandCount(t.symbol.unit.value), s) == Operands([], s, [])
  {
  }

  lemma OperationUnfold(t: Tree, s: State, all: Operands)
    requires !IsVariable(t) && Evaluable(t)
    requires all == OperandsGen(t, 0, s)
    ensures OperateGen(t, s) == Gen(all.lines + [LastLine(t, all)], all.state)
  {
  }

  lemma WhileUnfold(t: Tree, index: nat, s: State, c: Gen, cond: nat, body: Gen)
    requires WhileOk(t) && |t.children| >= 2
    requires c == OperateGen(t.children[0], State(s.unnamedVar, s.ifIndex, s.whileIndex + 1, s.forIndex, s.variables))
    requires cond == c.state.unnamedVar
    requires body == CodeGen(t.children[1], WithRegister(c.state, cond + 1))
    ensures WhileGen(t, index, s) ==
      Gen([Br(Label(WhileCond, index)), Mark(Label(WhileCond, index))] + c.lines
          + [CondBr(cond, Label(WhileCode, index), Label(EndWhile, index)), Mark(Label(WhileCode, index))]
          + body.lines + [Br(Label(WhileCond, index)), Mark(Label(EndWhile, index))],
          body.state)
  {
  }

  lemma IfThenUnfold(t: Tree, index: nat, s: State, c: Gen, cond: nat, body: Gen)
    requires IfOk(t) && |t.children| >= 2 && |t.children| != 3
    requires c == OperateGen(t.children[0], State(s.unnamedVar, s.ifIndex + 1, s.whileIndex, s.forIndex, s.variables))
    requires cond == c.state.unnamedVar
    requires body == CodeGen(t.children[1], WithRegister(c.state, cond + 1))
    ensures IfGen(t, index, s) ==
      Gen(c.lines + [CondBr(cond, Label(IfCode, index), Label(EndIf, index)), Mark(Label(IfCode, index))]
          + body.lines + [Br(Label(EndIf, index))] + [Mark(Label(EndIf, index))],
          body.state)
  {
  }

  lemma IfElseUnfold(t: Tree, index: nat, s: State, c: Gen, cond: nat, body: Gen, other: Gen)
    requires IfOk(t) && |t.children| == 3
    requires c == OperateGen(t.children[0], State(s.unnamedVar, s.ifIndex + 1, s.whileIndex, s.forIndex, s.variables))
    requires cond == c.state.unnamedVar
    requires body == CodeGen(t.children[1], WithRegister(c.state, cond + 1))
    requires other == CodeGen(t.children[2], body.state)
    ensures IfGen(t, index, s) ==
      Gen(c.lines + [CondBr(cond, Label(IfCode, index), Label(ElseCode, index)), Mark(Label(IfCode, index))]
          + body.lines + [Br(Label(EndIf, index))] + [Mark(Label(ElseCode, index))] + other.lines
          + [Br(Label(EndIf, index)), Mark(Label(EndIf, index))],
          other.state)
  {
  }

  lemma ForTestUnfold(t: Tree, index: nat, s: State, max: Operands)
    requires |t.children| >= 5 && IsVariable(t.children[0]) && OperandOk(t.children[3])
    requires max == OperandGen(t.children[3], WithRegister(s, s.unnamedVar + 1))
    ensures ForTestGen(t, index, s) ==
      Gen([Br(Label(ForCond, index)), Mark(Label(ForCond, index)), Load(s.unnamedVar, Name(t.children[0]))] + max.lines
          + [Op(max.state.unnamedVar, IcmpSlt, 32, Reg(s.unnamedVar), max.operands[0]),
             CondBr(max.state.unnamedVar, Label(ForCode, index), Label(EndFor, index)), Mark(Label(ForCode, index))],
          WithRegister(max.state, max.state.unnamedVar + 1))
  {
  }

  lemma ForStepUnfold(t: Tree, index: nat, i: nat, s: State, step: Operands)
    requires |t.children| >= 5 && OperandOk(t.children[2])
    requires step == OperandGen(t.children[2], s)
    ensures ForStepGen(t, index, i, s) ==
      Gen(step.lines
          + [Op(step.state.unnamedVar, Add, 32, Reg(i), step.operands[0]), Store(Reg(step.state.unnamedVar), Name(t.children[0])),
             Br(Label(ForCond, index)), Mark(Label(EndFor, index))],
          WithRegister(step.state, step.state.unnamedVar + 1))
  {
  }

  lemma ForUnfold(t: Tree, index: nat, s: State, init: Gen, test: Gen, body: Gen, step: Gen)
    requires ForOk(t) && |t.children| >= 5
    requires init == AssignGen(t, State(s.unnamedVar, s.ifIndex, s.whileIndex, s.forIndex + 1, s.variables))
    requires test == ForTestGen(t, index, init.state)
    requires body == CodeGen(t.children[4], test.state)
    requires step == ForStepGen(t, index, init.state.unnamedVar, body.state)
    ensures ForGen(t, index, s) == Gen(init.lines + test.lines + body.lines + step.lines, step.state)
  {
  }
}
