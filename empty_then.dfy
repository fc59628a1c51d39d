// An `if` whose then-part is empty. `<Code> -> ε` yields no tree
// (src/Parser.java:55-63), so the derivation of `if c then else e endif`
// holds an absent child where the then-code would be; the AST construction
// drops it (src/AbstractSyntaxTree.java:374-396) and the `<If>` node keeps two
// children, which the code generator reads as "no else part"
// (src/Compiler.java:233-258): the else-code is compiled as the then-branch.
// Keeping an empty `<Code>` node for the empty then-part gives the node its
// three children and the else-code its own label.
module EmptyThen {
  import opened Symbols
  import opened Trees
  import opened AstBuild
  import opened LlvmIr
  import opened CompilerSpec
  import opened AstRearrange
  import opened AstSimplify
  import Parsers

  /** A token leaf as the parser's `match` builds it. */
  function TokenLeaf(u: LexicalUnit): Tree
  {
    Leaf(SymbolOf(Some(u)))
  }

  /** The derivation of rule 26 taking rule 28: `if cond then thenPart else elseCode endif`. */
  function IfElseDerivation(cond: Tree, thenPart: Tree, elseCode: Tree): Tree
  {
    Tree(NonTerminal("<If>"),
      [TokenLeaf(IF), cond, TokenLeaf(THEN), thenPart,
       Tree(NonTerminal("<IfSeq>"), [TokenLeaf(ELSE), elseCode, TokenLeaf(ENDIF)])])
  }

  /** The `<If>` node the AST construction makes of that derivation. */
  function IfAst(d: Tree): Tree
  {
    Tree(d.symbol, Filter(d.children))
  }

  /** The empty `<Code>` node the corrected `<Code> -> ε` yields. */
  const EmptyCode: Tree := Tree(NonTerminal("<Code>"), [])

  /** The filtered form of a kept non-terminal. */
  function Filtered(t: Tree): Tree
  {
    Tree(t.symbol, Filter(t.children))
  }

  /** A dropped token contributes nothing. */
  lemma FilterToken(u: LexicalUnit)
    requires u in DroppedUnits
    ensures FilterOne(TokenLeaf(u)) == []
  {
    DroppedTokens(SymbolOf(Some(u)));
  }

  lemma FilterTriple(a: Tree, b: Tree, c: Tree)
    ensures Filter([a, b, c]) == FilterOne(a) + FilterOne(b) + FilterOne(c)
  {
    FilterAppend([a], [b, c]);
    FilterAppend([b], [c]);
    FilterSingleton(a);
    FilterSingleton(b);
    FilterSingleton(c);
    assert [a, b, c] == [a] + [b, c];
    assert [b, c] == [b] + [c];
  }

  lemma FilterFive(a: Tree, b: Tree, c: Tree, d: Tree, e: Tree)
    ensures Filter([a, b, c, d, e]) == FilterOne(a) + FilterOne(b) + FilterOne(c) + FilterOne(d) + FilterOne(e)
  {
    FilterAppend([a, b], [c, d, e]);
    FilterAppend([a], [b]);
    FilterSingleton(a);
    FilterSingleton(b);
    FilterTriple(c, d, e);
    assert [a, b, c, d, e] == [a, b] + [c, d, e];
    assert [a, b] == [a] + [b];
  }

  /** The labels of the derivation: `<Cond>` and `<Code>` are kept, `<IfSeq>` is spliced out. */
  lemma KeptTags()
    ensures Kept(NonTerminal("<Cond>")) && Kept(NonTerminal("<Code>"))
    ensures !Kept(NonTerminal("<IfSeq>")) && NonTerminal("<IfSeq>").IsNonTerminal()
  {
    assert "<IfSeq>" !in StructuralTags;
  }

  /** The `else ... endif` part contributes the else-code alone. */
  lemma FilterIfSeq(elseCode: Tree)
    requires elseCode.symbol == NonTerminal("<Code>")
    ensures FilterOne(Tree(NonTerminal("<IfSeq>"), [TokenLeaf(ELSE), elseCode, TokenLeaf(ENDIF)])) == [Filtered(elseCode)]
  {
    KeptTags();
    FilterToken(ELSE);
    FilterToken(ENDIF);
    FilterTriple(TokenLeaf(ELSE), elseCode, TokenLeaf(ENDIF));
  }

  /** The filtered child list of the derivation: the condition, the then-part's contribution, the else-code. */
  lemma FilterDerivation(cond: Tree, thenPart: Tree, elseCode: Tree)
    requires cond.symbol == NonTerminal("<Cond>") && elseCode.symbol == NonTerminal("<Code>")
    ensures Filter(IfElseDerivation(cond, thenPart, elseCode).children)
      == [Filtered(cond)] + FilterOne(thenPart) + [Filtered(elseCode)]
  {
    var seqTree := Tree(NonTerminal("<IfSeq>"), [TokenLeaf(ELSE), elseCode, TokenLeaf(ENDIF)]);
    KeptTags();
    FilterToken(IF);
    FilterToken(THEN);
    FilterIfSeq(elseCode);
    var a, b, c, d := FilterOne(TokenLeaf(IF)), FilterOne(cond), FilterOne(TokenLeaf(THEN)), FilterOne(thenPart);
    assert a == [] && c == [] && b == [Filtered(cond)];
    FilterFive(TokenLeaf(IF), cond, TokenLeaf(THEN), thenPart, seqTree);
    calc {
      Filter(IfElseDerivation(cond, thenPart, elseCode).children);
      Filter([TokenLeaf(IF), cond, TokenLeaf(THEN), thenPart, seqTree]);
      a + b + c + d + [Filtered(elseCode)];
      { assert a + b + c == b; }
      b + d + [Filtered(elseCode)];
    }
  }

  /** As written, the absent then-part leaves the `<If>` node two children. */
  lemma AbsentThenShape(cond: Tree, elseCode: Tree)
    requires cond.symbol == NonTerminal("<Cond>") && elseCode.symbol == NonTerminal("<Code>")
    ensures IfAst(IfElseDerivation(cond, Parsers.Absent, elseCode)).children == [Filtered(cond), Filtered(elseCode)]
  {
    FilterDerivation(cond, Parsers.Absent, elseCode);
    assert FilterOne(Parsers.Absent) == [];
  }

  /** With an empty `<Code>` node, the `<If>` node keeps three children. */
  lemma EmptyThenShape(cond: Tree, elseCode: Tree)
    requires cond.symbol == NonTerminal("<Cond>") && elseCode.symbol == NonTerminal("<Code>")
    ensures IfAst(IfElseDerivation(cond, EmptyCode, elseCode)).children == [Filtered(cond), EmptyCode, Filtered(elseCode)]
  {
    FilterDerivation(cond, EmptyCode, elseCode);
    KeptTags();
    assert FilterOne(EmptyCode) == [EmptyCode];
  }

  /** Simplifying a node that is no wrapper simplifies each child in place; a child that is no wrapper stays one. */
  lemma SimplifiedChild(u: Tree, i: int)
    requires WellFormed(u) && !IsWrapper(u) && 0 <= i < |u.children| && !IsWrapper(u.children[i])
    ensures |Simplified(u).children| == |u.children|
    ensures WellFormed(u.children[i]) && Simplified(u).children[i] == Simplified(u.children[i])
  {
    assert Prepared(u) == u.children;
    SimplifiedChildrenAt(u.children, i);
  }

  /** The `<If>` node of the derivation holds no wrapper at the top. */
  lemma IfNotWrapper(cond: Tree, thenPart: Tree, elseCode: Tree)
    ensures !IsWrapper(IfAst(IfElseDerivation(cond, thenPart, elseCode)))
    ensures elseCode.symbol == NonTerminal("<Code>") ==> !IsWrapper(Filtered(elseCode))
    ensures !IsWrapper(EmptyCode)
  {
  }

  /** `ast` is the simplified `<If>` node built from `if cond then <then-part> else elseCode endif`. */
  predicate BuiltIf(cond: Tree, thenPart: Tree, elseCode: Tree, ast: Tree)
  {
    cond.symbol == NonTerminal("<Cond>") && elseCode.symbol == NonTerminal("<Code>") &&
    WellFormed(IfAst(IfElseDerivation(cond, thenPart, elseCode))) &&
    ast == Simplified(IfAst(IfElseDerivation(cond, thenPart, elseCode)))
  }

  /** As written: the simplified `<If>` node has two children, the second the else-code. */
  lemma AbsentThenAst(cond: Tree, elseCode: Tree, ast: Tree)
    requires BuiltIf(cond, Parsers.Absent, elseCode, ast)
    ensures WellFormed(Filtered(elseCode))
    ensures |ast.children| == 2 && ast.children[1] == Simplified(Filtered(elseCode))
  {
    AbsentThenShape(cond, elseCode);
    IfNotWrapper(cond, Parsers.Absent, elseCode);
    SimplifiedChild(IfAst(IfElseDerivation(cond, Parsers.Absent, elseCode)), 1);
  }

  /** A conditional of two children: its second child is run when the condition holds, nothing otherwise. */
  lemma TwoChildIf(ast: Tree, index: nat, s: State)
    requires IfOk(ast) && |ast.children| == 2
    ensures var c := OperateGen(ast.children[0], State(s.unnamedVar, s.ifIndex + 1, s.whileIndex, s.forIndex, s.variables));
      var k := c.state.unnamedVar;
      IfGen(ast, index, s).lines ==
        c.lines + [CondBr(k, Label(IfCode, index), Label(EndIf, index)), Mark(Label(IfCode, index))]
        + CodeGen(ast.children[1], WithRegister(c.state, k + 1)).lines
        + [Br(Label(EndIf, index))] + [Mark(Label(EndIf, index))]
  {
    var c := OperateGen(ast.children[0], State(s.unnamedVar, s.ifIndex + 1, s.whileIndex, s.forIndex, s.variables));
    var k := c.state.unnamedVar;
    IfThenUnfold(ast, index, s, c, k, CodeGen(ast.children[1], WithRegister(c.state, k + 1)));
  }

  /**
   * As written: with the then-part absent, the generator branches to the
   * else-code (the second child, see AbsentThenAst) when the condition holds
   * and past it to `endif` when it does not.
   */
  lemma EmptyThenRunsElseOnTrue(cond: Tree, elseCode: Tree, ast: Tree, index: nat, s: State)
    requires BuiltIf(cond, Parsers.Absent, elseCode, ast) && IfOk(ast)
    ensures |ast.children| == 2
    ensures var c := OperateGen(ast.children[0], State(s.unnamedVar, s.ifIndex + 1, s.whileIndex, s.forIndex, s.variables));
      var k := c.state.unnamedVar;
      IfGen(ast, index, s).lines ==
        c.lines + [CondBr(k, Label(IfCode, index), Label(EndIf, index)), Mark(Label(IfCode, index))]
        + CodeGen(ast.children[1], WithRegister(c.state, k + 1)).lines
        + [Br(Label(EndIf, index))] + [Mark(Label(EndIf, index))]
  {
    AbsentThenAst(cond, elseCode, ast);
    TwoChildIf(ast, index, s);
  }

  /** Corrected: the simplified `<If>` node has three children, the empty code in the middle. */
  lemma EmptyThenAst(cond: Tree, elseCode: Tree, ast: Tree)
    requires BuiltIf(cond, EmptyCode, elseCode, ast)
    ensures WellFormed(Filtered(elseCode))
    ensures |ast.children| == 3 && ast.children[1] == EmptyCode && ast.children[2] == Simplified(Filtered(elseCode))
  {
    var u := IfAst(IfElseDerivation(cond, EmptyCode, elseCode));
    EmptyThenShape(cond, elseCode);
    IfNotWrapper(cond, EmptyCode, elseCode);
    SimplifiedChild(u, 1);
    SimplifiedChild(u, 2);
    EmptySimplified();
  }

  /** A conditional of three children whose then-part is empty: nothing runs when the condition holds, the else-code otherwise. */
  lemma EmptyThenIf(ast: Tree, index: nat, s: State)
    requires IfOk(ast) && |ast.children| == 3 && ast.children[1] == EmptyCode
    ensures var c := OperateGen(ast.children[0], State(s.unnamedVar, s.ifIndex + 1, s.whileIndex, s.forIndex, s.variables));
      var k := c.state.unnamedVar;
      IfGen(ast, index, s).lines ==
        c.lines + [CondBr(k, Label(IfCode, index), Label(ElseCode, index)), Mark(Label(IfCode, index))]
        + [Br(Label(EndIf, index))] + [Mark(Label(ElseCode, index))]
        + CodeGen(ast.children[2], WithRegister(c.state, k + 1)).lines
        + [Br(Label(EndIf, index)), Mark(Label(EndIf, index))]
  {
    var c := OperateGen(ast.children[0], State(s.unnamedVar, s.ifIndex + 1, s.whileIndex, s.forIndex, s.variables));
    var k := c.state.unnamedVar;
    var body := CodeGen(EmptyCode, WithRegister(c.state, k + 1));
    InstructionsEnd(EmptyCode, WithRegister(c.state, k + 1));
    IfElseUnfold(ast, index, s, c, k, body, CodeGen(ast.children[2], body.state));
  }

  /**
   * Corrected: with an empty `<Code>` node for the then-part, the generator
   * runs nothing when the condition holds and branches to `elseCode`, where
   * the else-code (the third child, see EmptyThenAst) stands, when it does not.
   */
  lemma EmptyThenRunsElseOnFalse(cond: Tree, elseCode: Tree, ast: Tree, index: nat, s: State)
    requires BuiltIf(cond, EmptyCode, elseCode, ast) && IfOk(ast)
    ensures |ast.children| == 3
    ensures var c := OperateGen(ast.children[0], State(s.unnamedVar, s.ifIndex + 1, s.whileIndex, s.forIndex, s.variables));
      var k := c.state.unnamedVar;
      IfGen(ast, index, s).lines ==
        c.lines + [CondBr(k, Label(IfCode, index), Label(ElseCode, index)), Mark(Label(IfCode, index))]
        + [Br(Label(EndIf, index))] + [Mark(Label(ElseCode, index))]
        + CodeGen(ast.children[2], WithRegister(c.state, k + 1)).lines
        + [Br(Label(EndIf, index)), Mark(Label(EndIf, index))]
  {
    EmptyThenAst(cond, elseCode, ast);
    EmptyThenIf(ast, index, s);
  }

  /** The empty code is left as it is by the simplification and writes nothing. */
  lemma EmptySimplified()
    ensures WellFormed(EmptyCode) && Simplified(EmptyCode) == EmptyCode
  {
    assert !IsWrapper(EmptyCode);
  }
}
