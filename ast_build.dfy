// First phase of the AST construction (src/AbstractSyntaxTree.java:374-444):
// the derivation tree is filtered. Structural non-terminals and
// content-bearing tokens are kept; helper non-terminals are spliced out, their
// children taking their place in the parent's list; other tokens vanish.
module AstBuild {
  import opened Symbols
  import opened Trees

  /** The non-terminals that survive in the AST. */
  const StructuralTags: set<string> :=
    {"<Program>", "<Code>", "<Assign>", "<If>", "<While>", "<For>",
     "<Print>", "<Read>", "<ExprArith>", "<Cond>"}

  /** The tokens that survive in the AST. */
  const KeptUnits: set<LexicalUnit> :=
    {VARNAME, MINUS, NUMBER, OR, EQUAL, GREATER, SMALLER, DIFFERENT,
     GREATER_EQUAL, SMALLER_EQUAL, AND, END, PLUS, NOT, TIMES, DIVIDE, BEG}

  /**
   * Whether a node with this label is kept. A non-terminal is compared by the
   * text of its tag (a tag that is not a string, which Java would reject with
   * an exception, is treated as not kept).
   */
  predicate Kept(s: Symbol)
  {
    if s.IsNonTerminal() then s.value.Str? && s.value.s in StructuralTags
    else s.unit.value in KeptUnits
  }

  /** The punctuation and keywords that the AST drops. */
  const DroppedUnits: set<LexicalUnit> :=
    {SEMICOLON, ASSIGN, LEFT_PARENTHESIS, RIGHT_PARENTHESIS, IF, THEN, ENDIF, ELSE,
     WHILE, DO, ENDWHILE, FOR, FROM, BY, TO, PRINT, READ, END_OF_STREAM}

  /** Every token is either kept or one of the dropped ones, never both. */
  lemma DroppedTokens(s: Symbol)
    requires s.IsTerminal()
    ensures !Kept(s) <==> s.unit.value in DroppedUnits
  {
    match s.unit.value
    case VARNAME | MINUS | NUMBER | OR | EQUAL | GREATER | SMALLER | DIFFERENT
      | GREATER_EQUAL | SMALLER_EQUAL | AND | END | PLUS | NOT | TIMES | DIVIDE | BEG =>
    case SEMICOLON | ASSIGN | LEFT_PARENTHESIS | RIGHT_PARENTHESIS | IF | THEN | ENDIF | ELSE
      | WHILE | DO | ENDWHILE | FOR | FROM | BY | TO | PRINT | READ | END_OF_STREAM =>
  }

  /** A filtered tree: every label kept, every token a leaf. */
  predicate Clean(t: Tree)
    decreases t
  {
    Kept(t.symbol) &&
    (t.symbol.IsTerminal() ==> t.children == []) &&
    forall i :: 0 <= i < |t.children| ==> Clean(t.children[i])
  }

  predicate AllClean(ts: seq<Tree>)
  {
    forall i :: 0 <= i < |ts| ==> Clean(ts[i])
  }

  /** What one derivation-tree child contributes to its parent's AST child list. */
  function FilterOne(t: Tree): (r: seq<Tree>)
    ensures AllClean(r)
    decreases t, 1
  {
    if Kept(t.symbol) then
      if t.symbol.IsNonTerminal() then [Tree(t.symbol, Filter(t.children))]
      else [Leaf(t.symbol)]
    else if t.symbol.IsNonTerminal() then Filter(t.children)
    else []
  }

  /** The AST child list built from a list of derivation-tree children. */
  function Filter(ts: seq<Tree>): (r: seq<Tree>)
    ensures AllClean(r)
    decreases ts, 0
  {
    if ts == [] then [] else FilterOne(ts[0]) + Filter(ts[1..])
  }

  lemma {:induction false} FilterAppend(a: seq<Tree>, b: seq<Tree>)
    ensures Filter(a + b) == Filter(a) + Filter(b)
    decreases |a|
  {
    if a == [] {
      assert a + b == b;
    } else {
      assert (a + b)[1..] == a[1..] + b;
      FilterAppend(a[1..], b);
    }
  }

  lemma FilterSingleton(t: Tree)
    ensures Filter([t]) == FilterOne(t)
  {
    assert [t][1..] == [];
  }

  /**
   * Appends to `childrenAST` the filtered form of `childrenPT`: a kept node is
   * added as a fresh leaf and, when it is a non-terminal, filled by recursing
   * into the new node's child list; a dropped non-terminal's children are
   * filtered into the same list.
   */
  method CreateTree(childrenPT: seq<Tree>, childrenAST: seq<Tree>) returns (r: seq<Tree>)
    ensures r == childrenAST + Filter(childrenPT)
    decreases childrenPT, 0
  {
    r := childrenAST;
    for i := 0 to |childrenPT|
      invariant r == childrenAST + Filter(childrenPT[..i])
    {
      var before := r;
      r := CreateChild(childrenPT[i], r);
      assert childrenPT[..i + 1] == childrenPT[..i] + [childrenPT[i]];
      FilterAppend(childrenPT[..i], [childrenPT[i]]);
      FilterSingleton(childrenPT[i]);
    }
    assert childrenPT[..|childrenPT|] == childrenPT;
  }

  /** One pass of createTree's loop: appends the filtered form of one child. */
  method CreateChild(childPT: Tree, childrenAST: seq<Tree>) returns (r: seq<Tree>)
    ensures r == childrenAST + FilterOne(childPT)
    decreases childPT, 1
  {
    r := childrenAST;
    if Kept(childPT.symbol) {
      r := r + [Leaf(childPT.symbol)];
    }
    if childPT.symbol.IsNonTerminal() {
      if Kept(childPT.symbol) {
        var last := r[|r| - 1];
        var filled := CreateTree(childPT.children, last.children);
        assert r[..|r| - 1] == childrenAST && last == Leaf(childPT.symbol);
        assert filled == Filter(childPT.children);
        r := r[..|r| - 1] + [Tree(last.symbol, filled)];
        assert r == childrenAST + [Tree(childPT.symbol, Filter(childPT.children))];
      } else {
        r := CreateTree(childPT.children, r);
      }
    } else if !Kept(childPT.symbol) {
      assert r == childrenAST + [];
    }
  }

  /** The labels of a forest in pre-order, not descending below tokens. */
  function Labels(ts: seq<Tree>): seq<Symbol>
    decreases ts
  {
    if ts == [] then []
    else
      var t := ts[0];
      [t.symbol] + (if t.symbol.IsNonTerminal() then Labels(t.children) else []) + Labels(ts[1..])
  }

  function KeptOnly(ss: seq<Symbol>): (r: seq<Symbol>)
    ensures forall i :: 0 <= i < |r| ==> Kept(r[i])
  {
    if ss == [] then []
    else (if Kept(ss[0]) then [ss[0]] else []) + KeptOnly(ss[1..])
  }

  lemma {:induction false} KeptOnlyAppend(a: seq<Symbol>, b: seq<Symbol>)
    ensures KeptOnly(a + b) == KeptOnly(a) + KeptOnly(b)
    decreases |a|
  {
    if a == [] {
      assert a + b == b;
    } else {
      assert (a + b)[1..] == a[1..] + b;
      KeptOnlyAppend(a[1..], b);
    }
  }

  lemma {:induction false} LabelsAppend(a: seq<Tree>, b: seq<Tree>)
    ensures Labels(a + b) == Labels(a) + Labels(b)
    decreases |a|
  {
    if a == [] {
      assert a + b == b;
    } else {
      assert (a + b)[1..] == a[1..] + b;
      LabelsAppend(a[1..], b);
    }
  }

  /**
   * Filtering keeps the kept labels in source order and nothing else: the
   * pre-order labels of the AST list are those of the derivation trees with
   * the dropped ones removed.
   */
  lemma {:induction false} FilterLabels(ts: seq<Tree>)
    ensures Labels(Filter(ts)) == KeptOnly(Labels(ts))
    decreases ts
  {
    if ts != [] {
      var t := ts[0];
      var below := if t.symbol.IsNonTerminal() then Labels(t.children) else [];
      FilterLabels(ts[1..]);
      LabelsAppend(FilterOne(t), Filter(ts[1..]));
      KeptOnlyAppend([t.symbol] + below, Labels(ts[1..]));
      KeptOnlyAppend([t.symbol], below);
      assert [t.symbol][1..] == [];
      if t.symbol.IsNonTerminal() {
        FilterLabels(t.children);
        if Kept(t.symbol) {
          assert [Tree(t.symbol, Filter(t.children))][1..] == [];
        }
      }
    }
  }

  /** A forest that is already filtered is left as it is. */
  lemma {:induction false} FilterClean(ts: seq<Tree>)
    requires AllClean(ts)
    ensures Filter(ts) == ts
    decreases ts
  {
    if ts != [] {
      var t := ts[0];
      FilterClean(ts[1..]);
      if t.symbol.IsNonTerminal() {
        FilterClean(t.children);
      }
      assert ts == [t] + ts[1..];
    }
  }

  /** Filtering twice is filtering once. */
  lemma FilterIdempotent(ts: seq<Tree>)
    ensures Filter(Filter(ts)) == Filter(ts)
  {
    FilterClean(Filter(ts));
  }
}
