// Precedence and associativity of the rearrangement on small lists
// (src/AbstractSyntaxTree.java:176-242, :258-326).
module AstExamples {
  import opened Symbols
  import opened Trees
  import opened AstPrecedence
  import opened AstRearrange

  /** A variable or number token as it appears in an expression list. */
  predicate Operand(t: Tree)
  {
    Tier(t) == 0 && !IsWrapper(t) && t.children == []
  }

  /** An operator token of the given lexical unit. */
  predicate Token(t: Tree, unit: LexicalUnit)
  {
    t.symbol.unit == Some(unit) && t.children == []
  }

  lemma {:induction false} OperandShaped(x: Tree, level: nat)
    requires Tier(x) == 0
    ensures Shaped([x], level)
    decreases if level < 7 then 7 - level else 0
  {
    if level < 7 {
      OperandShaped(x, level + 1);
    }
  }

  /** `x op y` for a binary operator of tier `level` is a level-`level` list. */
  lemma TripleShaped(x: Tree, op: Tree, y: Tree, level: nat)
    requires Tier(x) == 0 && Tier(y) == 0
    requires 1 <= level <= 6 && level != 3 && Tier(op) == level
    ensures SplitAt([x, op, y], level, 1) && Shaped([x, op, y], level)
  {
    var cs := [x, op, y];
    assert cs[..1] == [x] && cs[2..] == [y];
    OperandShaped(x, level);
    OperandShaped(y, level + 1);
    assert SplitAt(cs, level, 1);
  }

  /** A single binary operation becomes the operator with both operands. */
  lemma TripleRearranged(x: Tree, op: Tree, y: Tree)
    requires Operand(x) && Operand(y) && op.children == []
    requires Tier(op) > 0 && Tier(op) != 3
    ensures Rearrangeable([x, op, y])
    ensures Rearranged([x, op, y]) == Tree(op.symbol, [x, y])
  {
    var cs := [x, op, y];
    TripleShaped(x, op, y, Tier(op));
    ShapedWeaken(cs, Tier(op), 1);
    SplitAtRoot(cs, Tier(op), 1);
    assert LeftOperand(cs) == [x];
    assert RightOperand(cs) == y;
  }

  /** `a - b - c` groups to the left: the second `-` is the root. */
  lemma SubtractionGroupsLeft(a: Tree, m1: Tree, b: Tree, m2: Tree, c: Tree)
    requires Operand(a) && Operand(b) && Operand(c)
    requires Token(m1, MINUS) && Token(m2, MINUS)
    ensures Rearrangeable([a, m1, b, m2, c])
    ensures Rearranged([a, m1, b, m2, c]) == Tree(m2.symbol, [Tree(m1.symbol, [a, b]), c])
  {
    var cs := [a, m1, b, m2, c];
    var front := [a, m1, b];
    assert cs[..3] == front && cs[4..] == [c];
    TripleShaped(a, m1, b, 5);
    TripleRearranged(a, m1, b);
    OperandShaped(c, 6);
    assert SplitAt(cs, 5, 3);
    ShapedWeaken(cs, 5, 1);
    SplitAtRoot(cs, 5, 3);
    assert LeftOperand(cs) == [Tree(m1.symbol, [a, b])];
    assert RightOperand(cs) == c;
  }

  /** In `a + b * c` the product binds tighter: `+` is the root. */
  lemma ProductBindsTighter(a: Tree, p: Tree, b: Tree, t: Tree, c: Tree)
    requires Operand(a) && Operand(b) && Operand(c)
    requires Token(p, PLUS) && Token(t, TIMES)
    ensures Rearrangeable([a, p, b, t, c])
    ensures Rearranged([a, p, b, t, c]) == Tree(p.symbol, [a, Tree(t.symbol, [b, c])])
  {
    var cs := [a, p, b, t, c];
    var back := [b, t, c];
    assert cs[..1] == [a] && cs[2..] == back;
    TripleShaped(b, t, c, 6);
    TripleRearranged(b, t, c);
    OperandShaped(a, 5);
    assert SplitAt(cs, 5, 1);
    ShapedWeaken(cs, 5, 1);
    SplitAtRoot(cs, 5, 1);
    assert LeftOperand(cs) == [a];
    assert RightOperand(cs) == Tree(t.symbol, [b, c]);
  }

  /** A leading `not` takes everything to its right as its only operand. */
  lemma NotTakesTheRest(n: Tree, a: Tree, e: Tree, b: Tree)
    requires Operand(a) && Operand(b)
    requires Token(n, NOT) && Token(e, EQUAL)
    ensures Rearrangeable([n, a, e, b])
    ensures Rearranged([n, a, e, b]) == Tree(n.symbol, [Tree(e.symbol, [a, b])])
  {
    var cs := [n, a, e, b];
    var back := [a, e, b];
    assert cs[1..] == back;
    TripleShaped(a, e, b, 4);
    TripleRearranged(a, e, b);
    assert Shaped(back, 3);
    assert Shaped(cs, 3);
    ShapedWeaken(cs, 3, 1);
    ShapedTiers(cs, 3);
    NotRoot(cs);
    assert LeftOperand(cs) == [];
    assert RightOperand(cs) == Tree(e.symbol, [a, b]);
  }
}
