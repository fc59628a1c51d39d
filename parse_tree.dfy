// Conversion of a derivation tree to an abstract syntax tree
// (src/ParseTree.java:39-66). The keep test of that file always answers
// true, so every child is kept and nothing is spliced.
module ParseTrees {
  import opened Symbols
  import opened Trees

  /** Copy of a derivation tree in which every terminal child becomes a leaf. */
  function ToAst(t: Tree): (r: Tree)
    ensures r.symbol == t.symbol
    ensures |r.children| == |t.children|
    decreases t
  {
    Tree(t.symbol, ToAstChildren(t.children))
  }

  function ToAstChildren(cs: seq<Tree>): (r: seq<Tree>)
    ensures |r| == |cs|
    ensures forall i :: 0 <= i < |cs| ==> r[i].symbol == cs[i].symbol
    decreases cs
  {
    if cs == [] then []
    else
      var c := cs[0];
      var first := if c.symbol.IsTerminal() then Leaf(c.symbol) else ToAst(c);
      [first] + ToAstChildren(cs[1..])
  }

  /** Children keep their position; terminal children lose their own children. */
  lemma {:induction false} ToAstChildAt(cs: seq<Tree>, i: int)
    requires 0 <= i < |cs|
    ensures cs[i].symbol.IsTerminal() ==> ToAstChildren(cs)[i] == Leaf(cs[i].symbol)
    ensures cs[i].symbol.IsNonTerminal() ==> ToAstChildren(cs)[i] == ToAst(cs[i])
    decreases |cs|
  {
    if i > 0 {
      ToAstChildAt(cs[1..], i - 1);
    }
  }

  /** A tree whose terminal nodes are all leaves (as the parser builds them). */
  predicate TerminalsAreLeaves(t: Tree)
    decreases t
  {
    (t.symbol.IsTerminal() ==> t.children == []) &&
    forall i :: 0 <= i < |t.children| ==> TerminalsAreLeaves(t.children[i])
  }

  /** Every child subtree has leaf terminals. */
  predicate ChildrenAreClean(t: Tree)
  {
    forall i :: 0 <= i < |t.children| ==> TerminalsAreLeaves(t.children[i])
  }

  /** On such a tree the conversion is the identity: the AST has the same shape. */
  lemma {:induction false} ToAstIdentity(t: Tree)
    requires ChildrenAreClean(t)
    ensures ToAst(t) == t
    decreases t
  {
    var r := ToAst(t);
    forall i | 0 <= i < |t.children|
      ensures r.children[i] == t.children[i]
    {
      ToAstChildAt(t.children, i);
      if t.children[i].symbol.IsNonTerminal() {
        ToAstIdentity(t.children[i]);
      }
    }
  }

  /** Every tree produced by the conversion has leaf terminals. */
  lemma {:induction false} ToAstLeaves(t: Tree)
    ensures ChildrenAreClean(ToAst(t))
    decreases t
  {
    var r := ToAst(t);
    forall i | 0 <= i < |r.children|
      ensures TerminalsAreLeaves(r.children[i])
    {
      ToAstChildAt(t.children, i);
      if t.children[i].symbol.IsNonTerminal() {
        ToAstLeaves(t.children[i]);
        assert r.children[i] == ToAst(t.children[i]);
      }
    }
  }

  /** Converting twice is converting once. */
  lemma ToAstIdempotent(t: Tree)
    ensures ToAst(ToAst(t)) == ToAst(t)
  {
    ToAstLeaves(t);
    ToAstIdentity(ToAst(t));
  }

  /** The conversion keeps the tokens at the fringe, in order. */
  lemma {:induction false} ToAstFrontier(t: Tree)
    ensures Frontier(ToAst(t)) == Frontier(t)
    decreases t, 1
  {
    if t.symbol.IsNonTerminal() {
      ToAstChildrenFrontier(t.children);
    }
  }

  lemma {:induction false} ToAstChildrenFrontier(cs: seq<Tree>)
    ensures FrontierOf(ToAstChildren(cs)) == FrontierOf(cs)
    decreases cs, 0
  {
    if cs != [] {
      var r := ToAstChildren(cs);
      assert r[1..] == ToAstChildren(cs[1..]);
      ToAstChildrenFrontier(cs[1..]);
      if cs[0].symbol.IsNonTerminal() {
        ToAstFrontier(cs[0]);
      }
    }
  }

  /**
   * The AST never has more nodes than the derivation tree, and it has as
   * many exactly when no terminal below the root has children to drop.
   */
  lemma {:induction false} ToAstSize(t: Tree)
    ensures Size(ToAst(t)) <= Size(t)
    ensures Size(ToAst(t)) == Size(t) <==> ChildrenAreClean(t)
    decreases t, 1
  {
    ToAstChildrenSize(t.children);
  }

  lemma {:induction false} ToAstChildrenSize(cs: seq<Tree>)
    ensures SizeOf(ToAstChildren(cs)) <= SizeOf(cs)
    ensures SizeOf(ToAstChildren(cs)) == SizeOf(cs)
      <==> forall i :: 0 <= i < |cs| ==> TerminalsAreLeaves(cs[i])
    decreases cs, 0
  {
    if cs != [] {
      var c := cs[0];
      var r := ToAstChildren(cs);
      assert r[1..] == ToAstChildren(cs[1..]);
      ToAstChildrenSize(cs[1..]);
      if c.symbol.IsNonTerminal() {
        ToAstSize(c);
        assert r[0] == ToAst(c);
      } else {
        assert r[0] == Leaf(c.symbol);
        assert Size(r[0]) == 1;
        assert TerminalsAreLeaves(c) <==> c.children == [];
      }
      assert Size(r[0]) <= Size(c);
      assert Size(r[0]) == Size(c) <==> TerminalsAreLeaves(c);
      assert (forall i :: 0 <= i < |cs| ==> TerminalsAreLeaves(cs[i]))
        <==> TerminalsAreLeaves(c) && forall i :: 0 <= i < |cs[1..]| ==> TerminalsAreLeaves(cs[1..][i]) by {
        forall i | 0 < i < |cs|
          ensures cs[i] == cs[1..][i - 1]
        {
        }
      }
    }
  }
}
