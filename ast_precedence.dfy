// Operator precedence as the AST rearrangement sees it
// (src/AbstractSyntaxTree.java:176-242), and the shape of the flat operand and
// operator lists that the grammar of the language produces.
module AstPrecedence {
  import opened Symbols
  import opened Trees

  /** Precedence tier of an operator token: 1 or, 2 and, 3 not, 4 comparisons, 5 additive, 6 multiplicative. */
  function UnitTier(u: LexicalUnit): nat
  {
    match u
    case OR => 1
    case AND => 2
    case NOT => 3
    case EQUAL => 4
    case DIFFERENT => 4
    case GREATER => 4
    case GREATER_EQUAL => 4
    case SMALLER => 4
    case SMALLER_EQUAL => 4
    case PLUS => 5
    case MINUS => 5
    case TIMES => 6
    case DIVIDE => 6
    case _ => 0
  }

  /**
   * Precedence tier of a node, in the order the operator search tries them;
   * 0 for operands and non-terminals.
   */
  function Tier(t: Tree): (r: nat)
    ensures r <= 6
    ensures r > 0 ==> t.symbol.IsTerminal()
  {
    match t.symbol.unit
    case Some(u) => UnitTier(u)
    case None => 0
  }

  /** Rightmost position below `n` holding an operator of the given tier, or -1. */
  function LastBelow(cs: seq<Tree>, tier: nat, n: nat): (r: int)
    requires n <= |cs|
    ensures -1 <= r < n
    ensures r >= 0 ==> Tier(cs[r]) == tier
    ensures forall j :: r < j < n ==> Tier(cs[j]) != tier
  {
    if n == 0 then -1
    else if Tier(cs[n - 1]) == tier then n - 1
    else LastBelow(cs, tier, n - 1)
  }

  /** Rightmost position holding an operator of the given tier, or -1. */
  function LastOfTier(cs: seq<Tree>, tier: nat): (r: int)
    ensures -1 <= r < |cs|
    ensures r >= 0 ==> Tier(cs[r]) == tier
    ensures r >= 0 ==> forall j :: r < j < |cs| ==> Tier(cs[j]) != tier
    ensures r == -1 ==> forall j :: 0 <= j < |cs| ==> Tier(cs[j]) != tier
  {
    LastBelow(cs, tier, |cs|)
  }

  /** Leftmost position from `i` on holding an operator of the given tier, or -1. */
  function FirstFrom(cs: seq<Tree>, tier: nat, i: nat): (r: int)
    requires i <= |cs|
    ensures r == -1 || i <= r < |cs|
    ensures r >= 0 ==> Tier(cs[r]) == tier
    ensures r >= 0 ==> forall j :: i <= j < r ==> Tier(cs[j]) != tier
    ensures r == -1 ==> forall j :: i <= j < |cs| ==> Tier(cs[j]) != tier
    decreases |cs| - i
  {
    if i == |cs| then -1
    else if Tier(cs[i]) == tier then i
    else FirstFrom(cs, tier, i + 1)
  }

  /** Leftmost position holding an operator of the given tier, or -1. */
  function FirstOfTier(cs: seq<Tree>, tier: nat): (r: int)
    ensures -1 <= r < |cs|
    ensures r >= 0 ==> Tier(cs[r]) == tier
    ensures r >= 0 ==> forall j :: 0 <= j < r ==> Tier(cs[j]) != tier
    ensures r == -1 ==> forall j :: 0 <= j < |cs| ==> Tier(cs[j]) != tier
  {
    FirstFrom(cs, tier, 0)
  }

  /**
   * The position of the operator that becomes the root: an operator of the
   * lowest tier present, the rightmost one for the left-associative tiers and
   * the leftmost `not`; -1 when the list holds no operator.
   */
  function OperatorIndex(cs: seq<Tree>): (r: int)
    ensures -1 <= r < |cs|
  {
    if LastOfTier(cs, 1) >= 0 then LastOfTier(cs, 1)
    else if LastOfTier(cs, 2) >= 0 then LastOfTier(cs, 2)
    else if FirstOfTier(cs, 3) >= 0 then FirstOfTier(cs, 3)
    else if LastOfTier(cs, 4) >= 0 then LastOfTier(cs, 4)
    else if LastOfTier(cs, 5) >= 0 then LastOfTier(cs, 5)
    else LastOfTier(cs, 6)
  }

  /**
   * What the search finds: -1 exactly when there is no operator; otherwise
   * an operator of the lowest tier present, with no other operator of that
   * tier after it (before it, for `not`).
   */
  lemma OperatorIndexSpec(cs: seq<Tree>)
    ensures OperatorIndex(cs) == -1 <==> forall i :: 0 <= i < |cs| ==> Tier(cs[i]) == 0
    ensures var r := OperatorIndex(cs);
      r >= 0 ==> Tier(cs[r]) > 0 && forall i :: 0 <= i < |cs| && Tier(cs[i]) > 0 ==> Tier(cs[r]) <= Tier(cs[i])
    ensures var r := OperatorIndex(cs);
      r >= 0 && Tier(cs[r]) != 3 ==> forall i :: r < i < |cs| ==> Tier(cs[i]) != Tier(cs[r])
    ensures var r := OperatorIndex(cs);
      r >= 0 && Tier(cs[r]) == 3 ==> forall i :: 0 <= i < r ==> Tier(cs[i]) != 3
  {
  }

  /** Scan from the right for an operator of the given tier. */
  method ScanFromRight(children: seq<Tree>, tier: nat) returns (r: int)
    ensures r == LastOfTier(children, tier)
  {
    var i := |children| - 1;
    while i >= 0
      invariant -1 <= i < |children|
      invariant LastBelow(children, tier, i + 1) == LastOfTier(children, tier)
    {
      if Tier(children[i]) == tier {
        return i;
      }
      i := i - 1;
    }
    return -1;
  }

  /** Scan from the left for an operator of the given tier. */
  method ScanFromLeft(children: seq<Tree>, tier: nat) returns (r: int)
    ensures r == FirstOfTier(children, tier)
  {
    var i := 0;
    while i < |children|
      invariant 0 <= i <= |children|
      invariant FirstFrom(children, tier, i) == FirstOfTier(children, tier)
    {
      if Tier(children[i]) == tier {
        return i;
      }
      i := i + 1;
    }
    return -1;
  }

  /**
   * The operator search: `or`, `and`, comparisons and the arithmetic tiers
   * are scanned from the right, `not` from the left; the first tier that has
   * an operator decides.
   */
  method GetOperatorIndex(children: seq<Tree>) returns (r: int)
    ensures r == OperatorIndex(children)
  {
    r := ScanFromRight(children, 1);
    if r >= 0 {
      return;
    }
    r := ScanFromRight(children, 2);
    if r >= 0 {
      return;
    }
    r := ScanFromLeft(children, 3);
    if r >= 0 {
      return;
    }
    r := ScanFromRight(children, 4);
    if r >= 0 {
      return;
    }
    r := ScanFromRight(children, 5);
    if r >= 0 {
      return;
    }
    r := ScanFromRight(children, 6);
  }

  /**
   * The flat lists the grammar produces, level by level:
   *   level 1: level-1 `or` level-2 | level 2
   *   level 2: level-2 `and` level-3 | level 3
   *   level 3: `not` level-3 | level 4
   *   level 4: level-4 comparison level-5 | level 5
   *   level 5: level-5 (`+`|`-`) level-6 | level 6
   *   level 6: level-6 (`*`|`/`) operand | operand
   * where an operand is a single element of tier 0.
   */
  predicate Shaped(cs: seq<Tree>, level: nat)
    decreases |cs|, if level < 7 then 7 - level else 0, 1
  {
    if level >= 7 then |cs| == 1 && Tier(cs[0]) == 0
    else if level == 3 then
      Shaped(cs, 4) || (|cs| >= 2 && Tier(cs[0]) == 3 && Shaped(cs[1..], 3))
    else
      Shaped(cs, level + 1) || exists k :: 0 < k < |cs| - 1 && SplitAt(cs, level, k)
  }

  /** A binary operator of tier `level` at position k joins the two sides. */
  predicate SplitAt(cs: seq<Tree>, level: nat, k: int)
    requires level < 7
    decreases |cs|, 7 - level, 0
  {
    0 < k < |cs| - 1 && Tier(cs[k]) == level && Shaped(cs[..k], level) && Shaped(cs[k + 1..], level + 1)
  }

  predicate TiersAtLeast(cs: seq<Tree>, level: nat)
  {
    forall i :: 0 <= i < |cs| ==> Tier(cs[i]) == 0 || Tier(cs[i]) >= level
  }

  /** Every operator in a level-`level` list has at least that tier. */
  lemma {:induction false} ShapedTiers(cs: seq<Tree>, level: nat)
    requires Shaped(cs, level)
    ensures |cs| >= 1
    ensures TiersAtLeast(cs, level)
    decreases |cs|, if level < 7 then 7 - level else 0, 1
  {
    if level >= 7 {
    } else if level == 3 {
      if Shaped(cs, 4) {
        ShapedTiers(cs, 4);
        TiersWeaken(cs, 4, 3);
      } else {
        ShapedTiers(cs[1..], 3);
        TiersOfSplit(cs, 0, 3);
      }
    } else if Shaped(cs, level + 1) {
      ShapedTiers(cs, level + 1);
      TiersWeaken(cs, level + 1, level);
    } else {
      var k :| 0 < k < |cs| - 1 && SplitAt(cs, level, k);
      SplitTiers(cs, level, k);
    }
  }

  /** The tiers of a list split by an operator of tier `level`. */
  lemma {:induction false} SplitTiers(cs: seq<Tree>, level: nat, k: int)
    requires level < 7 && SplitAt(cs, level, k)
    ensures TiersAtLeast(cs, level)
    decreases |cs|, 7 - level, 0
  {
    ShapedTiers(cs[..k], level);
    ShapedTiers(cs[k + 1..], level + 1);
    TiersWeaken(cs[k + 1..], level + 1, level);
    TiersOfSplit(cs, k, level);
  }

  lemma TiersWeaken(cs: seq<Tree>, level: nat, lower: nat)
    requires TiersAtLeast(cs, level) && lower <= level
    ensures TiersAtLeast(cs, lower)
  {
  }

  /** An operator of tier `level` between two lists whose operators have at least that tier. */
  lemma TiersOfSplit(cs: seq<Tree>, k: int, level: nat)
    requires 0 <= k < |cs| && Tier(cs[k]) == level
    requires TiersAtLeast(cs[..k], level) && TiersAtLeast(cs[k + 1..], level)
    ensures TiersAtLeast(cs, level)
  {
    forall i | 0 <= i < |cs|
      ensures Tier(cs[i]) == 0 || Tier(cs[i]) >= level
    {
      if i < k {
        assert cs[i] == cs[..k][i];
      } else if i > k {
        assert cs[i] == cs[k + 1..][i - k - 1];
      }
    }
  }

  /** A one-element list of any level is a single operand. */
  lemma {:induction false} ShapedSingle(cs: seq<Tree>, level: nat)
    requires Shaped(cs, level) && |cs| == 1
    ensures Tier(cs[0]) == 0
    decreases if level < 7 then 7 - level else 0
  {
    if level < 7 {
      ShapedSingle(cs, level + 1);
    }
  }

  /** A list of some level is also a list of every lower level. */
  lemma {:induction false} ShapedWeaken(cs: seq<Tree>, level: nat, lower: nat)
    requires Shaped(cs, level) && 1 <= lower <= level
    ensures Shaped(cs, lower)
    decreases level - lower
  {
    if lower < level {
      ShapedWeaken(cs, level, lower + 1);
    }
  }

  /** A binary operator of the lowest tier with none of its tier after it is the root. */
  lemma BinaryRoot(cs: seq<Tree>, k: int)
    requires 0 <= k < |cs| && Tier(cs[k]) > 0 && Tier(cs[k]) != 3
    requires TiersAtLeast(cs, Tier(cs[k]))
    requires forall i :: k < i < |cs| ==> Tier(cs[i]) != Tier(cs[k])
    ensures OperatorIndex(cs) == k
  {
    OperatorIndexSpec(cs);
    var r := OperatorIndex(cs);
    assert r >= 0;
    assert Tier(cs[r]) == Tier(cs[k]);
  }

  /** A `not` of the lowest tier at the front is the root. */
  lemma NotRoot(cs: seq<Tree>)
    requires |cs| >= 1 && Tier(cs[0]) == 3 && TiersAtLeast(cs, 3)
    ensures OperatorIndex(cs) == 0
  {
    OperatorIndexSpec(cs);
    var r := OperatorIndex(cs);
    assert r >= 0;
    assert Tier(cs[r]) == 3;
  }

  /** The split of a binary level: the search finds exactly the joining operator. */
  lemma {:induction false} SplitAtRoot(cs: seq<Tree>, level: nat, k: int)
    requires 1 <= level <= 6 && level != 3
    requires 0 < k < |cs| - 1 && SplitAt(cs, level, k)
    ensures OperatorIndex(cs) == k
    ensures OperatorIndex(cs[k..]) == 0
  {
    ShapedTiers(cs[..k], level);
    ShapedTiers(cs[k + 1..], level + 1);
    assert cs == cs[..k] + [cs[k]] + cs[k + 1..];
    assert cs[k..] == [cs[k]] + cs[k + 1..];
    BinaryRoot(cs, k);
    BinaryRoot(cs[k..], 0);
  }

  /**
   * Where the operator search splits a grammar-shaped list: a `not` is found
   * at the front with a level-3 list after it; a binary operator of tier T
   * sits strictly inside, with a level-T list on its left and a level-(T+1)
   * list on its right. Searching again once the left part is removed finds
   * the same operator at the front.
   */
  lemma {:induction false} ShapedSplit(cs: seq<Tree>, level: nat)
    requires 1 <= level <= 6 && Shaped(cs, level) && |cs| >= 2
    ensures 0 <= OperatorIndex(cs) < |cs|
    ensures Tier(cs[OperatorIndex(cs)]) >= level
    ensures Tier(cs[OperatorIndex(cs)]) == 3 ==> OperatorIndex(cs) == 0 && Shaped(cs[1..], 3)
    ensures Tier(cs[OperatorIndex(cs)]) != 3 ==>
      var k := OperatorIndex(cs);
      0 < k < |cs| - 1 && Tier(cs[k]) <= 6 && SplitAt(cs, Tier(cs[k]), k)
    ensures OperatorIndex(cs[OperatorIndex(cs)..]) == 0
    decreases 7 - level
  {
    if level == 3 {
      if |cs| >= 2 && Tier(cs[0]) == 3 && Shaped(cs[1..], 3) {
        ShapedTiers(cs[1..], 3);
        assert cs == [cs[0]] + cs[1..];
        NotRoot(cs);
        assert cs[0..] == cs;
      } else {
        ShapedSplit(cs, 4);
      }
    } else if exists k :: 0 < k < |cs| - 1 && SplitAt(cs, level, k) {
      var k :| 0 < k < |cs| - 1 && SplitAt(cs, level, k);
      SplitAtRoot(cs, level, k);
    } else if level < 6 {
      ShapedSplit(cs, level + 1);
    } else {
      assert false;
    }
  }
}
