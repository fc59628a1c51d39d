// Second phase of the AST construction (src/AbstractSyntaxTree.java:136-170,
// :39-52): every `<ExprArith>`/`<Cond>` list is rearranged into its operator
// tree and the wrappers are then removed, leaving operators whose children
// are their operands.
module AstSimplify {
  import opened Symbols
  import opened Trees
  import opened AstPrecedence
  import opened AstBuild
  import opened AstRearrange

  /** The wrapper around a single operand or operator is replaced by it. */
  function Unwrap(t: Tree): (r: Tree)
    requires IsWrapper(t) ==> |t.children| == 1
    ensures IsWrapper(t) ==> r == t.children[0]
    ensures !IsWrapper(t) ==> r == t
  {
    if IsWrapper(t) then t.children[0] else t
  }

  /**
   * A simplified tree: no node below the root is a wrapper, and every
   * operator has exactly its operands as children.
   */
  predicate Settled(t: Tree)
    decreases t
  {
    (Tier(t) > 0 ==> |t.children| == Arity(t)) &&
    forall i :: 0 <= i < |t.children| ==> !IsWrapper(t.children[i]) && Settled(t.children[i])
  }

  /** What a wrapper in a well-formed tree holds. */
  lemma WrapperContents(t: Tree)
    requires WellFormed(t) && IsWrapper(t)
    ensures |t.children| != 2
    ensures |t.children| < 3 ==> |t.children| == 1 && Tier(t.children[0]) == 0 && WellFormed(t.children[0])
    ensures |t.children| >= 3 ==> Rearrangeable(t.children)
  {
    if |t.children| < 3 {
      OperandWellFormed(t.children[0]);
    }
  }

  /**
   * The child list after the first step of the simplification: a wrapper
   * holding a list gets the list's operator tree as its only child.
   */
  function Prepared(t: Tree): (cs: seq<Tree>)
    requires WellFormed(t)
    ensures IsWrapper(t) ==> |cs| == 1
    ensures !(IsWrapper(t) && |t.children| >= 3) ==> cs == t.children
    ensures forall i :: 0 <= i < |cs| ==> WellFormed(cs[i])
    ensures SizeOf(cs) < Size(t)
  {
    if IsWrapper(t) then
      WrapperContents(t);
      if |t.children| >= 3 then
        var r := Rearranged(t.children);
        RearrangedSize(t.children);
        SizeOfSingle(r);
        [r]
      else t.children
    else t.children
  }

  /**
   * The simplified tree: the prepared children are each simplified and, if
   * a wrapper, replaced by their only child.
   */
  function Simplified(t: Tree): (r: Tree)
    requires WellFormed(t)
    ensures r.symbol == t.symbol
    ensures IsWrapper(t) ==> |r.children| == 1
    ensures !IsWrapper(t) ==> |r.children| == |t.children|
    ensures Settled(r)
    decreases Size(t), 0
  {
    Tree(t.symbol, SimplifiedChildren(Prepared(t)))
  }

  /** Each child simplified, then unwrapped. */
  function SimplifiedChildren(cs: seq<Tree>): (r: seq<Tree>)
    requires forall i :: 0 <= i < |cs| ==> WellFormed(cs[i])
    ensures |r| == |cs|
    ensures forall i :: 0 <= i < |r| ==> !IsWrapper(r[i]) && Settled(r[i])
    decreases SizeOf(cs), 1
  {
    if cs == [] then []
    else
      SizeOfSplit(cs, 0);
      [Unwrap(Simplified(cs[0]))] + SimplifiedChildren(cs[1..])
  }

  lemma {:induction false} SimplifiedChildrenAt(cs: seq<Tree>, i: int)
    requires forall j :: 0 <= j < |cs| ==> WellFormed(cs[j])
    requires 0 <= i < |cs|
    ensures SimplifiedChildren(cs)[i] == Unwrap(Simplified(cs[i]))
    decreases i
  {
    if i > 0 {
      SimplifiedChildrenAt(cs[1..], i - 1);
    }
  }

  /** A list holding each child simplified and unwrapped is SimplifiedChildren. */
  lemma SimplifiedChildrenEach(cs: seq<Tree>, r: seq<Tree>)
    requires forall j :: 0 <= j < |cs| ==> WellFormed(cs[j])
    requires |r| == |cs| && forall j :: 0 <= j < |cs| ==> r[j] == Unwrap(Simplified(cs[j]))
    ensures r == SimplifiedChildren(cs)
  {
    SimplifiedChildrenAll(cs);
  }

  lemma SimplifiedChildrenAll(cs: seq<Tree>)
    requires forall j :: 0 <= j < |cs| ==> WellFormed(cs[j])
    ensures forall j :: 0 <= j < |cs| ==> SimplifiedChildren(cs)[j] == Unwrap(Simplified(cs[j]))
  {
    forall j | 0 <= j < |cs|
      ensures SimplifiedChildren(cs)[j] == Unwrap(Simplified(cs[j]))
    {
      SimplifiedChildrenAt(cs, j);
    }
  }

  /**
   * A wrapper holding a list ends with exactly one child: the operator the
   * search picks in that list.
   */
  lemma SimplifiedWrapper(t: Tree)
    requires WellFormed(t) && IsWrapper(t) && |t.children| >= 3
    ensures var r := Simplified(t);
      |r.children| == 1 && 0 <= OperatorIndex(t.children) < |t.children| &&
      r.children[0].symbol == t.children[OperatorIndex(t.children)].symbol
  {
    WrapperContents(t);
    var op := Rearranged(t.children);
    assert Prepared(t) == [op];
    SimplifiedChildrenAt([op], 0);
  }

  /**
   * Simplification keeps every operand and operator in source order: the
   * in-order reading of the simplified tree is that of the original.
   */
  lemma {:induction false} SimplifiedReading(t: Tree)
    requires WellFormed(t)
    ensures Reading(Simplified(t)) == Reading(t)
    decreases Size(t), 1
  {
    var cs := Prepared(t);
    var r := Simplified(t);
    SimplifiedChildrenReading(cs);
    if IsWrapper(t) {
      WrapperContents(t);
      if |t.children| >= 3 {
        RearrangedReading(t.children);
        ReadingOfSingle(Rearranged(t.children));
      }
    } else if Tier(t) > 0 && |t.children| == 2 {
      SizeOfSplit(t.children, 0);
      SizeOfSplit(t.children, 1);
      SimplifiedChildrenAt(cs, 0);
      SimplifiedChildrenAt(cs, 1);
      UnwrapSimplifiedReading(t.children[0]);
      UnwrapSimplifiedReading(t.children[1]);
    }
  }

  lemma {:induction false} UnwrapSimplifiedReading(c: Tree)
    requires WellFormed(c)
    ensures Reading(Unwrap(Simplified(c))) == Reading(c)
    decreases Size(c), 2
  {
    SimplifiedReading(c);
    var r := Simplified(c);
    if IsWrapper(c) {
      ReadingOfSingle(r.children[0]);
      assert r.children == [r.children[0]];
    }
  }

  lemma {:induction false} SimplifiedChildrenReading(cs: seq<Tree>)
    requires forall i :: 0 <= i < |cs| ==> WellFormed(cs[i])
    ensures ReadingOf(SimplifiedChildren(cs)) == ReadingOf(cs)
    decreases SizeOf(cs), 3
  {
    if cs != [] {
      SizeOfSplit(cs, 0);
      UnwrapSimplifiedReading(cs[0]);
      SimplifiedChildrenReading(cs[1..]);
      var r := SimplifiedChildren(cs);
      assert r[1..] == SimplifiedChildren(cs[1..]);
    }
  }

  /**
   * Simplifies a node: an `<ExprArith>` or a `<Cond>` holding a list gets
   * the list's operator tree as its only child; every child is then
   * simplified; finally every child that is a wrapper is replaced by its
   * only child.
   */
  method Simplify(t: Tree) returns (r: Tree)
    requires WellFormed(t)
    ensures r == Simplified(t)
    decreases Size(t), 0
  {
    var children := t.children;
    if t.symbol.IsNonTerminal() && t.symbol.value == Str(ExprTag) && |children| >= 3 {
      WrapperContents(t);
      var op := RearrangeTree(children);
      children := [op];
    }
    if t.symbol.IsNonTerminal() && t.symbol.value == Str(CondTag) && |children| >= 3 {
      WrapperContents(t);
      var op := RearrangeTree(children);
      children := [op];
    }
    assert children == Prepared(t);
    children := SimplifyEach(children);
    children := UnwrapEach(children);
    SimplifiedChildrenEach(Prepared(t), children);
    r := Tree(t.symbol, children);
  }

  /** Simplifies every child in turn. */
  method SimplifyEach(cs: seq<Tree>) returns (children: seq<Tree>)
    requires forall j :: 0 <= j < |cs| ==> WellFormed(cs[j])
    ensures |children| == |cs|
    ensures forall j :: 0 <= j < |cs| ==> children[j] == Simplified(cs[j])
    decreases SizeOf(cs), 1
  {
    children := cs;
    for i := 0 to |children|
      invariant |children| == |cs|
      invariant forall j :: 0 <= j < i ==> children[j] == Simplified(cs[j])
      invariant forall j :: i <= j < |children| ==> children[j] == cs[j]
    {
      SizeOfElement(cs, i);
      var child := Simplify(children[i]);
      children := children[i := child];
    }
  }

  /** Replaces every simplified child that is a wrapper by its only child. */
  method UnwrapEach(cs: seq<Tree>) returns (children: seq<Tree>)
    requires forall j :: 0 <= j < |cs| ==> IsWrapper(cs[j]) ==> |cs[j].children| == 1
    ensures |children| == |cs|
    ensures forall j :: 0 <= j < |cs| ==> children[j] == Unwrap(cs[j])
  {
    children := cs;
    for i := 0 to |children|
      invariant |children| == |cs|
      invariant forall j :: 0 <= j < i ==> children[j] == Unwrap(cs[j])
      invariant forall j :: i <= j < |children| ==> children[j] == cs[j]
    {
      if IsWrapper(children[i]) {
        children := children[i := children[i].children[0]];
      }
    }
  }

  /**
   * Builds the AST of a derivation tree: a node with the same label whose
   * children are the filtered derivation children, then simplified. The
   * result keeps the label, is settled, and reads in order as the filtered
   * tree does.
   */
  method FromParseTree(pt: Tree) returns (ast: Tree)
    requires WellFormed(Tree(pt.symbol, Filter(pt.children)))
    ensures ast == Simplified(Tree(pt.symbol, Filter(pt.children)))
    ensures ast.symbol == pt.symbol && Settled(ast)
    ensures Reading(ast) == Reading(Tree(pt.symbol, Filter(pt.children)))
  {
    var children := CreateTree(pt.children, []);
    assert children == Filter(pt.children);
    ast := Simplify(Tree(pt.symbol, children));
    SimplifiedReading(Tree(pt.symbol, children));
  }
}
