// Rearrangement of a flat operand/operator list into an operator tree
// (src/AbstractSyntaxTree.java:258-326). The list is the child list of an
// `<ExprArith>` or `<Cond>` node (a "wrapper"), or of a temporary node built
// from part of such a list.
module AstRearrange {
  import opened Symbols
  import opened Trees
  import opened AstPrecedence

  const ExprTag: string := "<ExprArith>"
  const CondTag: string := "<Cond>"

  /**
   * An `<ExprArith>` or `<Cond>` node. The source compares tags by reference
   * against the literals, which only the non-terminal labels share.
   */
  predicate IsWrapper(t: Tree)
  {
    t.symbol.IsNonTerminal() && (t.symbol.value == Str(ExprTag) || t.symbol.value == Str(CondTag))
  }

  /** Number of operands an operator node takes: one for `not`, two otherwise. */
  function Arity(t: Tree): nat
  {
    if Tier(t) == 3 then 1 else 2
  }

  /**
   * An element of an expression list as the grammar builds it: a token leaf,
   * or a wrapper holding either one operand or a grammar-shaped list of at
   * least three elements (unary minus, which yields two, is excluded).
   */
  predicate ExprItem(t: Tree)
    decreases t
  {
    if IsWrapper(t) then
      ((|t.children| == 1 && Tier(t.children[0]) == 0) || (|t.children| >= 3 && Shaped(t.children, 1))) &&
      forall i :: 0 <= i < |t.children| ==> ExprItem(t.children[i])
    else t.children == []
  }

  predicate AllExprItems(cs: seq<Tree>)
  {
    forall i :: 0 <= i < |cs| ==> ExprItem(cs[i])
  }

  /** A list the rearrangement accepts: grammar-shaped with at least one operator. */
  predicate Rearrangeable(cs: seq<Tree>)
  {
    |cs| >= 2 && Shaped(cs, 1) && AllExprItems(cs)
  }

  /**
   * A tree the simplification accepts: wrappers are grammar-built, and every
   * operator node outside them already has its operands.
   */
  predicate WellFormed(t: Tree)
    decreases t
  {
    if IsWrapper(t) then ExprItem(t)
    else
      (Tier(t) > 0 ==> |t.children| == Arity(t)) &&
      forall i :: 0 <= i < |t.children| ==> WellFormed(t.children[i])
  }

  lemma OperandWellFormed(t: Tree)
    requires ExprItem(t) && Tier(t) == 0
    ensures WellFormed(t)
  {
  }

  /**
   * The facts about the operator position that the rearrangement relies on
   * (see AstPrecedence.ShapedSplit), stated in the form it uses them.
   */
  lemma {:induction false} SplitFacts(cs: seq<Tree>)
    requires Rearrangeable(cs)
    ensures var k := OperatorIndex(cs);
      0 <= k < |cs| - 1 && Tier(cs[k]) > 0 &&
      (k > 1 ==> Tier(cs[k]) != 3 && Rearrangeable(cs[..k])) &&
      (k == 1 ==> Tier(cs[k]) != 3 && Tier(cs[0]) == 0) &&
      (Tier(cs[k]) == 3 <==> k == 0) &&
      OperatorIndex(cs[k..]) == 0 &&
      (|cs| - k >= 3 ==> Rearrangeable(cs[k + 1..])) &&
      (|cs| - k == 2 ==> Tier(cs[k + 1]) == 0)
  {
    ShapedSplit(cs, 1);
    var k := OperatorIndex(cs);
    var tier := Tier(cs[k]);
    var right := cs[k + 1..];
    if tier == 3 {
      assert right == cs[1..];
      ShapedWeaken(right, 3, 1);
      if |right| == 1 {
        ShapedSingle(right, 3);
      }
    } else {
      assert SplitAt(cs, tier, k);
      ShapedWeaken(cs[..k], tier, 1);
      ShapedWeaken(right, tier + 1, 1);
      if k == 1 {
        ShapedSingle(cs[..k], tier);
      }
      if |right| == 1 {
        ShapedSingle(right, tier + 1);
      }
    }
  }

  /** The operator the search finds in a rearrangeable list: a token, not last. */
  lemma OperatorFound(cs: seq<Tree>)
    requires Rearrangeable(cs)
    ensures var k := OperatorIndex(cs);
      0 <= k < |cs| - 1 && Tier(cs[k]) > 0 && cs[k].children == []
  {
    SplitFacts(cs);
    assert ExprItem(cs[OperatorIndex(cs)]);
  }

  /** What precedes the operator: nothing for `not`, else one side or a rearrangeable list. */
  lemma LeftFacts(cs: seq<Tree>)
    requires Rearrangeable(cs)
    ensures var k := OperatorIndex(cs);
      0 <= k < |cs| - 1 && Tier(cs[k]) > 0 &&
      (Tier(cs[k]) == 3 <==> k == 0) &&
      (k > 1 ==> Rearrangeable(cs[..k])) &&
      (k == 1 ==> ExprItem(cs[0]) && Tier(cs[0]) == 0)
  {
    SplitFacts(cs);
  }

  /** What follows the operator: one side or a rearrangeable list. */
  lemma RightFacts(cs: seq<Tree>)
    requires Rearrangeable(cs)
    ensures var k := OperatorIndex(cs);
      0 <= k < |cs| - 1 && OperatorIndex(cs[k..]) == 0 &&
      (|cs| - k >= 3 ==> Rearrangeable(cs[k + 1..])) &&
      (|cs| - k == 2 ==> ExprItem(cs[k + 1]) && Tier(cs[k + 1]) == 0)
  {
    SplitFacts(cs);
  }

  lemma SizeOfPair(a: Tree, b: Tree)
    ensures SizeOf([a, b]) == Size(a) + Size(b)
  {
    assert [a, b][1..] == [b];
    assert [b][1..] == [];
  }

  lemma SizeOfSingle(a: Tree)
    ensures SizeOf([a]) == Size(a)
  {
    assert [a][1..] == [];
  }

  /**
   * The operator tree of a rearrangeable list: the operator found by the
   * search becomes the root; its left operand is built from the elements
   * before it (as a temporary node when there are several), its right
   * operand from those after it.
   */
  function Rearranged(cs: seq<Tree>): (r: Tree)
    requires Rearrangeable(cs)
    ensures 0 <= OperatorIndex(cs) < |cs| && r.symbol == cs[OperatorIndex(cs)].symbol
    ensures Tier(r) > 0 && |r.children| == Arity(r)
    ensures WellFormed(r)
    decreases SizeOf(cs), 2
  {
    var k := OperatorIndex(cs);
    assert 0 <= k < |cs| && Tier(cs[k]) > 0 by { OperatorFound(cs); }
    Tree(cs[k].symbol, LeftOperand(cs) + [RightOperand(cs)])
  }

  /**
   * The operands to the left of the operator: none for `not`, one element
   * used as a side, or the rearranged prefix when there are several.
   */
  function LeftOperand(cs: seq<Tree>): (r: seq<Tree>)
    requires Rearrangeable(cs)
    ensures 0 <= OperatorIndex(cs) < |cs|
    ensures |r| == (if Tier(cs[OperatorIndex(cs)]) == 3 then 0 else 1)
    ensures forall i :: 0 <= i < |r| ==> WellFormed(r[i])
    decreases SizeOf(cs), 1
  {
    LeftFacts(cs);
    var k := OperatorIndex(cs);
    SizeOfSplit(cs, k);
    if k > 1 then [Rearranged(cs[..k])]
    else if k == 1 then [Side(cs[0])]
    else []
  }

  /**
   * The operand to the right of the operator: the rearranged suffix when at
   * least two elements follow it, its last element used as a side otherwise.
   * (The source decides this by searching the operator again in the list that
   * starts at it, where it is found first; see RearrangeTree.)
   */
  function RightOperand(cs: seq<Tree>): (r: Tree)
    requires Rearrangeable(cs)
    ensures 0 <= OperatorIndex(cs) < |cs| - 1
    ensures WellFormed(r)
    decreases SizeOf(cs), 1
  {
    RightFacts(cs);
    var k := OperatorIndex(cs);
    SizeOfSplit(cs, k);
    if |cs| - k >= 3 then Rearranged(cs[k + 1..])
    else Side(cs[|cs| - 1])
  }

  /**
   * One side of an operator when it is a single element: a wrapper is
   * rearranged when it holds a list and replaced by its only child otherwise;
   * any other element is used as it is.
   */
  function Side(c: Tree): (r: Tree)
    requires ExprItem(c) && Tier(c) == 0
    ensures WellFormed(r)
    decreases Size(c), 0
  {
    if IsWrapper(c) then
      if |c.children| >= 3 then Rearranged(c.children)
      else c.children[0]
    else c
  }

  /** The operator tree has no more nodes than the list it was built from. */
  lemma {:induction false} RearrangedSize(cs: seq<Tree>)
    requires Rearrangeable(cs)
    ensures Size(Rearranged(cs)) <= SizeOf(cs)
    decreases SizeOf(cs), 2
  {
    var k := OperatorIndex(cs);
    assert 0 <= k < |cs| by { OperatorFound(cs); }
    var left := LeftOperand(cs);
    var right := RightOperand(cs);
    assert Rearranged(cs).children == left + [right];
    LeftOperandSize(cs);
    RightOperandSize(cs);
    SizeOfAppend(left, [right]);
    SizeOfSingle(right);
    SizeOfSplit(cs, k);
  }

  lemma {:induction false} LeftOperandSize(cs: seq<Tree>)
    requires Rearrangeable(cs)
    ensures SizeOf(LeftOperand(cs)) <= SizeOf(cs[..OperatorIndex(cs)])
    decreases SizeOf(cs), 1
  {
    LeftFacts(cs);
    var k := OperatorIndex(cs);
    SizeOfSplit(cs, k);
    if k > 1 {
      RearrangedSize(cs[..k]);
      SizeOfSingle(Rearranged(cs[..k]));
    } else if k == 1 {
      SideSize(cs[0]);
      SizeOfSingle(Side(cs[0]));
      assert cs[..k] == [cs[0]];
      SizeOfSingle(cs[0]);
    }
  }

  lemma {:induction false} RightOperandSize(cs: seq<Tree>)
    requires Rearrangeable(cs)
    ensures Size(RightOperand(cs)) <= SizeOf(cs[OperatorIndex(cs) + 1..])
    decreases SizeOf(cs), 1
  {
    RightFacts(cs);
    var k := OperatorIndex(cs);
    SizeOfSplit(cs, k);
    if |cs| - k >= 3 {
      RearrangedSize(cs[k + 1..]);
    } else {
      assert cs[k + 1..] == [cs[k + 1]];
      SizeOfSingle(cs[k + 1]);
      SideSize(cs[k + 1]);
    }
  }

  lemma {:induction false} SideSize(c: Tree)
    requires ExprItem(c) && Tier(c) == 0
    ensures Size(Side(c)) <= Size(c)
    decreases Size(c), 0
  {
    if IsWrapper(c) {
      if |c.children| >= 3 {
        RearrangedSize(c.children);
      } else {
        SizeOfElement(c.children, 0);
      }
    }
  }

  /**
   * The in-order reading of a tree: a binary operator is read between its
   * operands, any other node before its children, and a wrapper is read as
   * its children only.
   */
  function Reading(t: Tree): seq<Symbol>
    decreases t
  {
    if IsWrapper(t) then ReadingOf(t.children)
    else if Tier(t) > 0 && |t.children| == 2 then
      Reading(t.children[0]) + [t.symbol] + Reading(t.children[1])
    else [t.symbol] + ReadingOf(t.children)
  }

  function ReadingOf(ts: seq<Tree>): seq<Symbol>
    decreases ts
  {
    if ts == [] then [] else Reading(ts[0]) + ReadingOf(ts[1..])
  }

  lemma {:induction false} ReadingOfAppend(a: seq<Tree>, b: seq<Tree>)
    ensures ReadingOf(a + b) == ReadingOf(a) + ReadingOf(b)
    decreases |a|
  {
    if a == [] {
      assert a + b == b;
    } else {
      assert (a + b)[1..] == a[1..] + b;
      ReadingOfAppend(a[1..], b);
    }
  }

  lemma ReadingOfSingle(t: Tree)
    ensures ReadingOf([t]) == Reading(t)
  {
    assert [t][1..] == [];
  }

  lemma ReadingOfSplit(ts: seq<Tree>, k: int)
    requires 0 <= k < |ts|
    ensures ReadingOf(ts) == ReadingOf(ts[..k]) + Reading(ts[k]) + ReadingOf(ts[k + 1..])
  {
    assert ts == ts[..k] + ts[k..];
    ReadingOfAppend(ts[..k], ts[k..]);
    ReadingOfAt(ts, k);
    Associative(ReadingOf(ts[..k]), Reading(ts[k]), ReadingOf(ts[k + 1..]));
  }

  lemma ReadingOfAt(ts: seq<Tree>, k: int)
    requires 0 <= k < |ts|
    ensures ReadingOf(ts[k..]) == Reading(ts[k]) + ReadingOf(ts[k + 1..])
  {
    assert ts[k..][0] == ts[k] && ts[k..][1..] == ts[k + 1..];
  }

  lemma Associative(a: seq<Symbol>, b: seq<Symbol>, c: seq<Symbol>)
    ensures a + (b + c) == a + b + c
  {
  }

  /**
   * Rearrangement keeps the operands and operators in source order: reading
   * the operator tree in order gives back the list with its wrappers removed.
   */
  lemma {:induction false} RearrangedReading(cs: seq<Tree>)
    requires Rearrangeable(cs)
    ensures Reading(Rearranged(cs)) == ReadingOf(cs)
    decreases SizeOf(cs), 2
  {
    var k := OperatorIndex(cs);
    OperatorFound(cs);
    LeftOperandReading(cs);
    RightOperandReading(cs);
    OperatorReading(cs[k], LeftOperand(cs), RightOperand(cs));
    ReadingOfSplit(cs, k);
  }

  /** How an operator token, and an operator node built from it, read. */
  lemma OperatorReading(op: Tree, left: seq<Tree>, right: Tree)
    requires Tier(op) > 0 && op.children == []
    requires |left| == (if Tier(op) == 3 then 0 else 1)
    ensures Reading(op) == [op.symbol]
    ensures Reading(Tree(op.symbol, left + [right])) == ReadingOf(left) + [op.symbol] + Reading(right)
  {
    var t := Tree(op.symbol, left + [right]);
    assert Tier(t) == Tier(op);
    ReadingOfSingle(right);
    if Tier(op) != 3 {
      ReadingOfSingle(left[0]);
      assert t.children == [left[0], right];
    } else {
      assert t.children == [right];
    }
  }

  lemma {:induction false} LeftOperandReading(cs: seq<Tree>)
    requires Rearrangeable(cs)
    ensures ReadingOf(LeftOperand(cs)) == ReadingOf(cs[..OperatorIndex(cs)])
    decreases SizeOf(cs), 1
  {
    LeftFacts(cs);
    var k := OperatorIndex(cs);
    SizeOfSplit(cs, k);
    if k > 1 {
      RearrangedReading(cs[..k]);
      ReadingOfSingle(Rearranged(cs[..k]));
    } else if k == 1 {
      SideReading(cs[0]);
      ReadingOfSingle(Side(cs[0]));
      assert cs[..k] == [cs[0]];
      ReadingOfSingle(cs[0]);
    }
  }

  lemma {:induction false} RightOperandReading(cs: seq<Tree>)
    requires Rearrangeable(cs)
    ensures Reading(RightOperand(cs)) == ReadingOf(cs[OperatorIndex(cs) + 1..])
    decreases SizeOf(cs), 1
  {
    RightFacts(cs);
    var k := OperatorIndex(cs);
    SizeOfSplit(cs, k);
    if |cs| - k >= 3 {
      RearrangedReading(cs[k + 1..]);
    } else {
      assert cs[k + 1..] == [cs[k + 1]];
      ReadingOfSingle(cs[k + 1]);
      SideReading(cs[k + 1]);
    }
  }

  lemma {:induction false} SideReading(c: Tree)
    requires ExprItem(c) && Tier(c) == 0
    ensures Reading(Side(c)) == Reading(c)
    decreases Size(c), 0
  {
    if IsWrapper(c) {
      if |c.children| >= 3 {
        RearrangedReading(c.children);
      } else {
        SizeOfElement(c.children, 0);
        ReadingOfSingle(c.children[0]);
      }
    }
  }

  /**
   * The operand a single element stands for on one side of the operator
   * (the inline case analysis of the source, shared by both sides).
   */
  method SideOperand(child: Tree) returns (r: Tree)
    requires ExprItem(child) && Tier(child) == 0
    ensures r == Side(child)
    decreases Size(child), 0
  {
    if IsWrapper(child) {
      if |child.children| >= 3 {
        r := RearrangeTree(child.children);
      } else {
        r := child.children[0];
      }
    } else {
      r := child;
    }
  }

  /**
   * Rearranges a child list in place: the operands on each side of the
   * operator are taken out of the list (see TakeLeft and TakeRight) and the
   * operator node, given them as children, is returned.
   */
  method RearrangeTree(children: seq<Tree>) returns (operator: Tree)
    requires Rearrangeable(children)
    ensures operator == Rearranged(children)
    decreases SizeOf(children), 2
  {
    OperatorFound(children);
    var operatorIndex := GetOperatorIndex(children);
    var op := children[operatorIndex];
    var operatorChildren, cs := TakeLeft(children);
    var right;
    right, cs := TakeRight(children, cs);
    operatorChildren := operatorChildren + [right];
    operator := Tree(op.symbol, operatorChildren);
  }

  /** Moves the first `n` elements of `cs`, one at a time, into a new list. */
  method MoveFront(cs: seq<Tree>, n: int) returns (temp: seq<Tree>, rest: seq<Tree>)
    requires 0 <= n <= |cs|
    ensures temp == cs[..n] && rest == cs[n..]
  {
    temp, rest := [], cs;
    for i := 0 to n
      invariant temp == cs[..i] && rest == cs[i..]
    {
      temp := temp + [rest[0]];
      rest := rest[1..];
    }
  }

  /** Moves every element after the first, one at a time, into a new list. */
  method MoveAfterFirst(cs: seq<Tree>) returns (temp: seq<Tree>, rest: seq<Tree>)
    requires |cs| >= 1
    ensures temp == cs[1..] && rest == [cs[0]]
  {
    temp, rest := [], cs;
    var childrenSize := |cs|;
    for i := 1 to childrenSize
      invariant temp == cs[1..i] && rest == [cs[0]] + cs[i..]
    {
      temp := temp + [rest[1]];
      rest := [rest[0]] + rest[2..];
    }
  }

  /**
   * The left side: when several elements precede the operator they are
   * moved into a temporary list, which is rearranged; a single one is used
   * as a side and removed. Returns the operands collected and what is left
   * of the list.
   */
  method TakeLeft(children: seq<Tree>) returns (operatorChildren: seq<Tree>, cs: seq<Tree>)
    requires Rearrangeable(children)
    ensures operatorChildren == LeftOperand(children)
    ensures 0 <= OperatorIndex(children) < |children| && cs == children[OperatorIndex(children)..]
    decreases SizeOf(children), 1
  {
    LeftFacts(children);
    SizeOfSplit(children, OperatorIndex(children));
    cs := children;
    var operatorIndex := GetOperatorIndex(cs);
    operatorChildren := [];
    if operatorIndex > 1 {
      var temp;
      temp, cs := MoveFront(cs, operatorIndex);
      var left := RearrangeTree(temp);
      operatorChildren := operatorChildren + [left];
    } else if operatorIndex == 1 {
      var left := SideOperand(cs[0]);
      operatorChildren := operatorChildren + [left];
      cs := cs[1..];
    }
  }

  /**
   * The right side, taken from the list `cs` left by TakeLeft, which starts
   * at the operator: the operator is searched again; when more than one
   * element follows it they are moved into a temporary list, which is
   * rearranged; otherwise the last element is used as a side and removed.
   * Returns the operand and what is left of the list, the operator alone.
   */
  method TakeRight(children: seq<Tree>, cs: seq<Tree>) returns (right: Tree, rest: seq<Tree>)
    requires Rearrangeable(children)
    requires 0 <= OperatorIndex(children) < |children| && cs == children[OperatorIndex(children)..]
    ensures right == RightOperand(children)
    ensures rest == [children[OperatorIndex(children)]]
    decreases SizeOf(children), 1
  {
    RightFacts(children);
    ghost var k := OperatorIndex(children);
    SizeOfSplit(children, k);
    assert cs[1..] == children[k + 1..];
    var operatorIndex := GetOperatorIndex(cs);
    if operatorIndex < |cs| - 2 {
      var temp;
      temp, rest := MoveAfterFirst(cs);
      right := RearrangeTree(temp);
    } else {
      right := SideOperand(cs[|cs| - 1]);
      rest := cs[..|cs| - 1];
    }
  }
}
