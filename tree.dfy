// The tree shape shared by derivation trees and abstract syntax trees
// (src/ParseTree.java, src/AbstractSyntaxTree.java): a label and an ordered
// list of children.
module Trees {
  import opened Symbols

  datatype Tree = Tree(symbol: Symbol, children: seq<Tree>)

  /** A node without children: one node, whose frontier is its label when that is a token. */
  function Leaf(s: Symbol): (t: Tree)
    ensures t.symbol == s && t.children == []
    ensures Size(t) == 1
    ensures Frontier(t) == (if s.IsTerminal() then [s] else [])
  {
    Tree(s, [])
  }

  /** Number of nodes of a tree. */
  function Size(t: Tree): (n: nat)
    ensures n >= 1
    decreases t
  {
    1 + SizeOf(t.children)
  }

  /** Number of nodes of a forest. */
  function SizeOf(ts: seq<Tree>): (n: nat)
    ensures ts == [] <==> n == 0
    decreases ts
  {
    if ts == [] then 0 else Size(ts[0]) + SizeOf(ts[1..])
  }

  lemma {:induction false} SizeOfAppend(a: seq<Tree>, b: seq<Tree>)
    ensures SizeOf(a + b) == SizeOf(a) + SizeOf(b)
    decreases |a|
  {
    if a == [] {
      assert a + b == b;
    } else {
      assert (a + b)[1..] == a[1..] + b;
      SizeOfAppend(a[1..], b);
    }
  }

  /** Splitting a forest around position k. */
  lemma SizeOfSplit(ts: seq<Tree>, k: int)
    requires 0 <= k < |ts|
    ensures SizeOf(ts) == SizeOf(ts[..k]) + Size(ts[k]) + SizeOf(ts[k + 1..])
    ensures Size(ts[k]) <= SizeOf(ts)
    ensures SizeOf(ts[..k]) < SizeOf(ts) && SizeOf(ts[k + 1..]) < SizeOf(ts)
  {
    assert ts == ts[..k] + ts[k..];
    SizeOfAppend(ts[..k], ts[k..]);
    assert ts[k..][0] == ts[k] && ts[k..][1..] == ts[k + 1..];
  }

  /** Every element of a forest is smaller than the forest. */
  lemma SizeOfElement(ts: seq<Tree>, k: int)
    requires 0 <= k < |ts|
    ensures Size(ts[k]) <= SizeOf(ts)
  {
    SizeOfSplit(ts, k);
  }

  /**
   * The terminal symbols at the fringe of a tree, left to right. A terminal
   * node contributes its own label (its children, if any, are not read).
   */
  function Frontier(t: Tree): seq<Symbol>
    decreases t
  {
    if t.symbol.IsTerminal() then [t.symbol] else FrontierOf(t.children)
  }

  function FrontierOf(ts: seq<Tree>): seq<Symbol>
    decreases ts
  {
    if ts == [] then [] else Frontier(ts[0]) + FrontierOf(ts[1..])
  }

  lemma {:induction false} FrontierOfAppend(a: seq<Tree>, b: seq<Tree>)
    ensures FrontierOf(a + b) == FrontierOf(a) + FrontierOf(b)
    decreases |a|
  {
    if a == [] {
      assert a + b == b;
    } else {
      assert (a + b)[1..] == a[1..] + b;
      FrontierOfAppend(a[1..], b);
    }
  }
}
