// The LL(1) recursive-descent parser (src/Parser.java). Each parsing method of
// the source picks a rule from the lookahead token, prints the rule's number,
// and then works through the rule's right-hand side in order: a terminal is
// matched, a non-terminal is parsed by a recursive call, and every result
// (null included) is added to the node's child list. The model keeps that
// procedure in one method per step, `Production` and `Derive`, driven by the
// grammar written out as data: `Select` is the if-chain each source method
// tests, `Rhs` the right-hand side of each numbered rule.
module Parsers {
  import opened Symbols
  import opened Trees
  import opened ParseTrees

  /** The grammar's variables, one per parsing method of the source. */
  datatype Variable =
    | ProgramV | CodeV | InstListV | NextInstV | InstructionV | AssignV
    | ExprArithV | ExprArithPrimeV | ProdV | ProdPrimeV | AtomV
    | IfV | IfSeqV | CondV | CondPrimeV | CondAndV | CondAndPrimeV | SimpleCondV | CompV
    | WhileV | ForV | PrintV | ReadV

  /** One symbol of a right-hand side. */
  datatype Item = Terminal(unit: LexicalUnit) | Variable(v: Variable)

  /** The label of the node built for a variable. */
  function Tag(v: Variable): string
  {
    match v
    case ProgramV => "<Program>"
    case CodeV => "<Code>"
    case InstListV => "<InstList>"
    case NextInstV => "<NextInst>"
    case InstructionV => "<Instruction>"
    case AssignV => "<Assign>"
    case ExprArithV => "<ExprArith>"
    case ExprArithPrimeV => "<ExprArith'>"
    case ProdV => "<Prod>"
    case ProdPrimeV => "<Prod'>"
    case AtomV => "<Atom>"
    case IfV => "<If>"
    case IfSeqV => "<IfSeq>"
    case CondV => "<Cond>"
    case CondPrimeV => "<Cond'>"
    case CondAndV => "<CondAnd>"
    case CondAndPrimeV => "<CondAnd'>"
    case SimpleCondV => "<SimpleCond>"
    case CompV => "<Comp>"
    case WhileV => "<While>"
    case ForV => "<For>"
    case PrintV => "<Print>"
    case ReadV => "<Read>"
  }

  /** Tokens that start an instruction. */
  const InstFirst: set<LexicalUnit> := {VARNAME, IF, WHILE, FOR, PRINT, READ}
  /** Lookaheads of `<Code> -> ε` and `<NextInst> -> ε`. */
  const CodeFollow: set<LexicalUnit> := {END, ENDIF, ELSE, ENDWHILE}
  /** Tokens that start an arithmetic expression. */
  const ExprFirst: set<LexicalUnit> := {VARNAME, NUMBER, MINUS, LEFT_PARENTHESIS}
  /** Tokens that start a condition. */
  const CondFirst: set<LexicalUnit> := ExprFirst + {NOT}
  /** Lookaheads of `<ExprArith'> -> ε`. */
  const ExprFollow: set<LexicalUnit> :=
    {END, SEMICOLON, THEN, ENDIF, ELSE, OR, AND, EQUAL, GREATER_EQUAL, GREATER,
     SMALLER_EQUAL, SMALLER, DIFFERENT, DO, ENDWHILE, BY, TO}
  /** Lookaheads of `<Prod'> -> ε`: those of `<ExprArith'>` and the additive operators. */
  const ProdFollow: set<LexicalUnit> := ExprFollow + {PLUS, MINUS}
  /** Lookaheads of `<Cond'> -> ε`. */
  const CondFollow: set<LexicalUnit> := {THEN, DO}
  /** Lookaheads of `<CondAnd'> -> ε`. */
  const CondAndFollow: set<LexicalUnit> := {THEN, DO, OR}

  /**
   * The tokens the source tests before choosing rule n: a rule that starts
   * with a token is chosen on that token alone.
   */
  function Lookaheads(n: nat): set<LexicalUnit>
  {
    var items := Rhs(n);
    if items != [] && items[0].Terminal? then {items[0].unit}
    else
      match n
      case 2 => CodeFollow
      case 3 => InstFirst
      case 4 => InstFirst
      case 5 => CodeFollow
      case 7 => {VARNAME}
      case 8 => {IF}
      case 9 => {WHILE}
      case 10 => {FOR}
      case 11 => {PRINT}
      case 12 => {READ}
      case 14 => ExprFirst
      case 17 => ExprFollow
      case 18 => ExprFirst
      case 21 => ProdFollow
      case 29 => CondFirst
      case 31 => CondFollow
      case 32 => CondFirst
      case 34 => CondAndFollow
      case 35 => ExprFirst
      case _ => {}
  }

  /** The rules of each variable, in the order its parsing method tests them. */
  function Choices(v: Variable): seq<nat>
  {
    match v
    case ProgramV => [1]
    case CodeV => [2, 3]
    case InstListV => [4]
    case NextInstV => [5, 6]
    case InstructionV => [7, 8, 9, 10, 11, 12]
    case AssignV => [13]
    case ExprArithV => [14]
    case ExprArithPrimeV => [15, 16, 17]
    case ProdV => [18]
    case ProdPrimeV => [19, 20, 21]
    case AtomV => [22, 23, 24, 25]
    case IfV => [26]
    case IfSeqV => [27, 28]
    case CondV => [29]
    case CondPrimeV => [30, 31]
    case CondAndV => [32]
    case CondAndPrimeV => [33, 34]
    case SimpleCondV => [35, 36]
    case CompV => [37, 38, 39, 40, 41, 42]
    case WhileV => [43]
    case ForV => [44]
    case PrintV => [45]
    case ReadV => [46]
  }

  /** Where the first rule whose lookahead set holds u stands in the list; its length when there is none. */
  function Applicable(rules: seq<nat>, u: Option<LexicalUnit>): (i: nat)
    ensures i <= |rules|
    ensures i < |rules| ==> u.Some? && u.value in Lookaheads(rules[i])
    ensures forall k :: 0 <= k < i ==> !(u.Some? && u.value in Lookaheads(rules[k]))
  {
    if rules == [] then 0
    else if u.Some? && u.value in Lookaheads(rules[0]) then 0
    else 1 + Applicable(rules[1..], u)
  }

  /**
   * The number of the rule a parsing method chooses for the lookahead; 0 when
   * none applies (the method then returns null without reporting an error).
   */
  function Select(v: Variable, u: Option<LexicalUnit>): nat
  {
    var i := Applicable(Choices(v), u);
    if i < |Choices(v)| then Choices(v)[i] else 0
  }

  /** The right-hand side of each numbered rule; the ε-rules have none. */
  function Rhs(n: nat): seq<Item>
  {
    match n
    case 1 => [Terminal(BEG), Variable(CodeV), Terminal(END)]
    case 3 => [Variable(InstListV)]
    case 4 => [Variable(InstructionV), Variable(NextInstV)]
    case 6 => [Terminal(SEMICOLON), Variable(InstListV)]
    case 7 => [Variable(AssignV)]
    case 8 => [Variable(IfV)]
    case 9 => [Variable(WhileV)]
    case 10 => [Variable(ForV)]
    case 11 => [Variable(PrintV)]
    case 12 => [Variable(ReadV)]
    case 13 => [Terminal(VARNAME), Terminal(ASSIGN), Variable(ExprArithV)]
    case 14 => [Variable(ProdV), Variable(ExprArithPrimeV)]
    case 15 => [Terminal(PLUS), Variable(ProdV), Variable(ExprArithPrimeV)]
    case 16 => [Terminal(MINUS), Variable(ProdV), Variable(ExprArithPrimeV)]
    case 18 => [Variable(AtomV), Variable(ProdPrimeV)]
    case 19 => [Terminal(TIMES), Variable(AtomV), Variable(ProdPrimeV)]
    case 20 => [Terminal(DIVIDE), Variable(AtomV), Variable(ProdPrimeV)]
    case 22 => [Terminal(MINUS), Variable(AtomV)]
    case 23 => [Terminal(NUMBER)]
    case 24 => [Terminal(VARNAME)]
    case 25 => [Terminal(LEFT_PARENTHESIS), Variable(ExprArithV), Terminal(RIGHT_PARENTHESIS)]
    case 26 => [Terminal(IF), Variable(CondV), Terminal(THEN), Variable(CodeV), Variable(IfSeqV)]
    case 27 => [Terminal(ENDIF)]
    case 28 => [Terminal(ELSE), Variable(CodeV), Terminal(ENDIF)]
    case 29 => [Variable(CondAndV), Variable(CondPrimeV)]
    case 30 => [Terminal(OR), Variable(CondAndV), Variable(CondPrimeV)]
    case 32 => [Variable(SimpleCondV), Variable(CondAndPrimeV)]
    case 33 => [Terminal(AND), Variable(SimpleCondV), Variable(CondAndPrimeV)]
    case 35 => [Variable(ExprArithV), Variable(CompV), Variable(ExprArithV)]
    case 36 => [Terminal(NOT), Variable(SimpleCondV)]
    case 37 => [Terminal(EQUAL)]
    case 38 => [Terminal(GREATER_EQUAL)]
    case 39 => [Terminal(GREATER)]
    case 40 => [Terminal(SMALLER_EQUAL)]
    case 41 => [Terminal(SMALLER)]
    case 42 => [Terminal(DIFFERENT)]
    case 43 => [Terminal(WHILE), Variable(CondV), Terminal(DO), Variable(CodeV), Terminal(ENDWHILE)]
    case 44 =>
      [Terminal(FOR), Terminal(VARNAME), Terminal(FROM), Variable(ExprArithV), Terminal(BY),
       Variable(ExprArithV), Terminal(TO), Variable(ExprArithV), Terminal(DO), Variable(CodeV),
       Terminal(ENDWHILE)]
    case 45 => [Terminal(PRINT), Terminal(LEFT_PARENTHESIS), Terminal(VARNAME), Terminal(RIGHT_PARENTHESIS)]
    case 46 => [Terminal(READ), Terminal(LEFT_PARENTHESIS), Terminal(VARNAME), Terminal(RIGHT_PARENTHESIS)]
    case _ => []
  }

  /**
   * The order in which a method may call another without having consumed a
   * token first: a rule whose right-hand side does not start with the
   * lookahead token only names variables of lower rank.
   */
  function Rank(v: Variable): nat
  {
    match v
    case CodeV => 3
    case InstListV => 2
    case InstructionV => 1
    case ExprArithV => 2
    case ProdV => 1
    case CondV => 5
    case CondAndV => 4
    case SimpleCondV => 3
    case _ => 0
  }

  /**
   * A rule whose right-hand side starts with a variable names only variables
   * of lower rank than its own; a rule that starts with a token is chosen on
   * that token alone (see `Lookaheads`). Together: the recursion of the
   * parsing methods always makes progress.
   */
  lemma RuleDescends(v: Variable, i: nat)
    requires i < |Choices(v)|
    ensures var n := Choices(v)[i];
      Rhs(n) != [] && Rhs(n)[0].Variable? ==> LowerRanked(Rhs(n), Rank(v), 0)
  {
    if v in {ProgramV, CodeV, InstListV, NextInstV, InstructionV} {
      BlockRuleDescends(v, i);
    } else if v in {AssignV, IfV, IfSeqV, WhileV, ForV, PrintV, ReadV} {
      InstructionRuleDescends(v, i);
    } else if v in {ExprArithV, ExprArithPrimeV, ProdV, ProdPrimeV, AtomV} {
      ArithmeticRuleDescends(v, i);
    } else if v in {CondV, CondPrimeV, CondAndV, CondAndPrimeV} {
      ConditionRuleDescends(v, i);
    } else {
      ComparisonRuleDescends(v, i);
    }
  }

  /** `RuleDescends` for the program and its instruction lists. */
  lemma BlockRuleDescends(v: Variable, i: nat)
    requires v in {ProgramV, CodeV, InstListV, NextInstV, InstructionV} && i < |Choices(v)|
    ensures var n := Choices(v)[i];
      Rhs(n) != [] && Rhs(n)[0].Variable? ==> LowerRanked(Rhs(n), Rank(v), 0)
  {
  }

  /** `RuleDescends` for the rules of single instructions. */
  lemma InstructionRuleDescends(v: Variable, i: nat)
    requires v in {AssignV, IfV, IfSeqV, WhileV, ForV, PrintV, ReadV} && i < |Choices(v)|
    ensures var n := Choices(v)[i];
      Rhs(n) != [] && Rhs(n)[0].Variable? ==> LowerRanked(Rhs(n), Rank(v), 0)
  {
  }

  /** `RuleDescends` for the rules of arithmetic expressions. */
  lemma ArithmeticRuleDescends(v: Variable, i: nat)
    requires v in {ExprArithV, ExprArithPrimeV, ProdV, ProdPrimeV, AtomV} && i < |Choices(v)|
    ensures var n := Choices(v)[i];
      Rhs(n) != [] && Rhs(n)[0].Variable? ==> LowerRanked(Rhs(n), Rank(v), 0)
  {
  }

  /** `RuleDescends` for the rules of conditions. */
  lemma ConditionRuleDescends(v: Variable, i: nat)
    requires v in {CondV, CondPrimeV, CondAndV, CondAndPrimeV} && i < |Choices(v)|
    ensures var n := Choices(v)[i];
      Rhs(n) != [] && Rhs(n)[0].Variable? ==> LowerRanked(Rhs(n), Rank(v), 0)
  {
  }

  /** `RuleDescends` for the rules of simple conditions and comparisons. */
  lemma ComparisonRuleDescends(v: Variable, i: nat)
    requires v in {SimpleCondV, CompV} && i < |Choices(v)|
    ensures var n := Choices(v)[i];
      Rhs(n) != [] && Rhs(n)[0].Variable? ==> LowerRanked(Rhs(n), Rank(v), 0)
  {
    if v == SimpleCondV && i == 0 {
      assert LowerRanked(Rhs(35), Rank(SimpleCondV), 2);
    }
  }


  /** Every variable of a right-hand side, from position k on, has rank below the given one. */
  predicate LowerRanked(items: seq<Item>, rank: nat, k: nat)
    decreases |items| - k
  {
    k >= |items| || ((items[k].Variable? ==> Rank(items[k].v) < rank) && LowerRanked(items, rank, k + 1))
  }

  lemma {:induction false} LowerRankedAt(items: seq<Item>, rank: nat, k: nat)
    requires LowerRanked(items, rank, k)
    ensures forall j :: k <= j < |items| && items[j].Variable? ==> Rank(items[j].v) < rank
    decreases |items| - k
  {
    if k < |items| {
      LowerRankedAt(items, rank, k + 1);
    }
  }

  /** A right-hand side that starts with the lookahead token, or names only lower-ranked variables. */
  predicate Descends(items: seq<Item>, rank: nat, u: Option<LexicalUnit>)
  {
    (items != [] && u.Some? && items[0] == Terminal(u.value)) ||
    forall k :: 0 <= k < |items| && items[k].Variable? ==> Rank(items[k].v) < rank
  }

  /**
   * A child slot of a node. The source adds the result of every call to the
   * child list, null included; the model stores `Absent`, a childless node
   * with no category and no value, in place of null.
   */
  const Absent: Tree := Tree(Symbol(None, Null, 0, -1), [])

  function OrAbsent(r: Option<Tree>): (t: Tree)
    ensures r.Some? ==> t == r.value
    ensures r.None? ==> t == Absent
  {
    if r.Some? then r.value else Absent
  }

  /** The tokens a parse result stands for, left to right. */
  function Consumed(r: Option<Tree>): seq<Symbol>
  {
    Frontier(OrAbsent(r))
  }

  /** A tree the parser can build for variable v: its node and every node below follow a rule of the grammar. */
  predicate Derived(t: Tree, v: Variable)
    decreases t, 2
  {
    t.symbol == NonTerminal(Tag(v)) && DerivedBy(t, Choices(v))
  }

  predicate DerivedBy(t: Tree, rules: seq<nat>)
    decreases t, 1, |rules|
  {
    rules != [] && (Fits(t, Rhs(rules[0])) || DerivedBy(t, rules[1..]))
  }

  /** The children of t fill the slots of a right-hand side, one each. */
  predicate Fits(t: Tree, items: seq<Item>)
    decreases t, 0
  {
    |t.children| == |items| &&
    forall k :: 0 <= k < |items| ==> Slot(t.children[k], items[k])
  }

  /** A child slot holds the matched token, a tree derived from the variable, or nothing. */
  predicate Slot(c: Tree, item: Item)
    decreases c, 3
  {
    c == Absent ||
    match item
    case Terminal(u) => c.symbol.unit == Some(u) && c.children == []
    case Variable(v) => Derived(c, v)
  }

  /** A node whose children fit one of the listed rules is derived by that list. */
  lemma {:induction false} DerivedByMember(t: Tree, rules: seq<nat>, i: nat)
    requires i < |rules| && Fits(t, Rhs(rules[i]))
    ensures DerivedBy(t, rules)
    decreases i
  {
    if i > 0 {
      DerivedByMember(t, rules[1..], i - 1);
    }
  }

  /** In a derived tree every token is a leaf, so converting it to an AST leaves it as it is. */
  lemma {:induction false} DerivedTerminalsAreLeaves(t: Tree, v: Variable)
    requires Derived(t, v)
    ensures TerminalsAreLeaves(t)
    decreases t, 2
  {
    DerivedByTerminalsAreLeaves(t, Choices(v));
  }

  lemma {:induction false} DerivedByTerminalsAreLeaves(t: Tree, rules: seq<nat>)
    requires DerivedBy(t, rules)
    ensures forall i :: 0 <= i < |t.children| ==> TerminalsAreLeaves(t.children[i])
    decreases t, 1, |rules|
  {
    if Fits(t, Rhs(rules[0])) {
      var items := Rhs(rules[0]);
      forall i | 0 <= i < |t.children|
        ensures TerminalsAreLeaves(t.children[i])
      {
        var c := t.children[i];
        assert Slot(c, items[i]);
        if c == Absent {
        } else if items[i].Terminal? {
        } else {
          DerivedTerminalsAreLeaves(c, items[i].v);
        }
      }
    } else {
      DerivedByTerminalsAreLeaves(t, rules[1..]);
    }
  }

  /** The tree of a successful parse is already its own AST conversion. */
  lemma ParsedIsConverted(t: Tree)
    requires Derived(t, ProgramV)
    ensures ToAst(t) == t
  {
    DerivedTerminalsAreLeaves(t, ProgramV);
    ToAstIdentity(t);
  }

  /** A child list that fills the first slots of a right-hand side still does so with one more fitting child. */
  lemma SlotsPush(children: seq<Tree>, items: seq<Item>, c: Tree)
    requires |children| < |items|
    requires forall k :: 0 <= k < |children| ==> Slot(children[k], items[k])
    requires Slot(c, items[|children|])
    ensures forall k :: 0 <= k <= |children| ==> Slot((children + [c])[k], items[k])
    ensures (children + [c])[0] == if children == [] then c else children[0]
  {
  }

  /** The frontier of a child list grows by what the new child consumed. */
  lemma FrontierPush(symbols: seq<Symbol>, children: seq<Tree>, x: Option<Tree>, l0: nat, l1: nat, l2: nat)
    requires l0 <= l1 <= l2 <= |symbols|
    requires FrontierOf(children) == symbols[l0..l1]
    requires Consumed(x) == symbols[l1..l2]
    ensures FrontierOf(children + [OrAbsent(x)]) == symbols[l0..l2]
  {
    var t := OrAbsent(x);
    FrontierOfAppend(children, [t]);
    assert [t][1..] == [];
    assert symbols[l0..l2] == symbols[l0..l1] + symbols[l1..l2];
  }

  /** The category of the token at position i; none past the end (or for a non-terminal). */
  function Next(symbols: seq<Symbol>, i: nat): (u: Option<LexicalUnit>)
    ensures u.Some? ==> i < |symbols| && symbols[i].unit == u
    ensures i < |symbols| ==> u == symbols[i].unit
  {
    if i < |symbols| then symbols[i].unit else None
  }

  class Parser {
    const symbols: seq<Symbol>
    /** Position of the next token to read. */
    var l: nat
    /** Set at the first token that does not match; never cleared. */
    var syntaxError: bool
    /** The line reported with the syntax error. */
    var errorLine: int
    /** A token was read past the end of the list (an exception in the source). */
    var overrun: bool
    /** Numbers of the rules chosen so far, in the order they were printed. */
    var rules: seq<nat>

    predicate Valid()
      reads this
    {
      l <= |symbols|
    }

    /** A parser at the first token, with no error reported. */
    constructor(symbols: seq<Symbol>)
      ensures this.symbols == symbols && l == 0
      ensures !syntaxError && !overrun && rules == []
      ensures Valid()
    {
      this.symbols := symbols;
      l := 0;
      syntaxError := false;
      errorLine := 0;
      overrun := false;
      rules := [];
    }

    /**
     * What every step may do: move the cursor forward, set (never clear) the
     * error and overrun flags, and print more rule numbers.
     */
    twostate predicate Advanced()
      reads this
    {
      old(l) <= l <= |symbols| &&
      (old(syntaxError) ==> syntaxError && errorLine == old(errorLine)) &&
      (old(overrun) ==> overrun) &&
      old(rules) <= rules
    }

    /** Nothing was read and no error was reported. */
    twostate predicate Skipped()
      reads this
    {
      l == old(l) && syntaxError == old(syntaxError) && errorLine == old(errorLine)
    }

    /**
     * Parses from `<Program>`. The tree is returned only when no token was
     * missing and none failed to match; trailing tokens are not checked.
     */
    method Parse() returns (r: Option<Tree>)
      requires Valid()
      modifies this
      ensures Valid() && Advanced()
      ensures r.Some? <==> Next(symbols, old(l)) == Some(BEG) && !syntaxError && !overrun
      ensures r.Some? ==> Derived(r.value, ProgramV) && Frontier(r.value) == symbols[old(l)..l]
      ensures r.Some? ==> |rules| > |old(rules)| && rules[|old(rules)|] == 1
    {
      var parseTree := Production(ProgramV);
      if syntaxError || overrun {
        r := None;
      } else {
        r := parseTree;
      }
    }

    /** The category of the current token. */
    method Lookahead() returns (u: Option<LexicalUnit>)
      requires Valid()
      modifies this`overrun
      ensures u == Next(symbols, l)
      ensures overrun == (old(overrun) || l >= |symbols|)
    {
      if l < |symbols| {
        u := symbols[l].unit;
      } else {
        overrun := true;
        u := None;
      }
    }

    /**
     * Accepts the current token if it has the expected category: the cursor
     * moves one token and a leaf is returned. Otherwise nothing is read and the
     * first such mismatch is reported with its line.
     */
    method Match(unit: LexicalUnit) returns (r: Option<Tree>)
      requires Valid()
      modifies this
      ensures Valid() && Advanced() && rules == old(rules)
      ensures Consumed(r) == symbols[old(l)..l]
      ensures Next(symbols, old(l)) == Some(unit) ==>
        l == old(l) + 1 && r == Some(Leaf(symbols[old(l)])) &&
        syntaxError == old(syntaxError) && errorLine == old(errorLine) && overrun == old(overrun)
      ensures Next(symbols, old(l)) != Some(unit) ==>
        r == None && l == old(l) &&
        syntaxError == (old(syntaxError) || old(l) < |symbols|) &&
        overrun == (old(overrun) || old(l) >= |symbols|)
      ensures Next(symbols, old(l)) != Some(unit) && !old(syntaxError) && old(l) < |symbols| ==>
        errorLine == symbols[old(l)].line
    {
      if l >= |symbols| {
        overrun := true;
        r := None;
        return;
      }
      var terminal := symbols[l];
      if terminal.unit == Some(unit) {
        l := l + 1;
        r := Some(Leaf(terminal));
        assert symbols[old(l)..l] == [terminal];
      } else {
        if !syntaxError {
          errorLine := terminal.line;
          syntaxError := true;
        }
        r := None;
      }
    }

    /**
     * One parsing method of the source, for variable v: the rule the lookahead
     * selects is printed; an ε-rule, or no applicable rule, gives no tree and
     * reads nothing; otherwise the rule's right-hand side is parsed into the
     * children of a node labelled with the variable.
     */
    method Production(v: Variable) returns (r: Option<Tree>)
      requires Valid()
      modifies this
      ensures Valid() && Advanced()
      ensures Consumed(r) == symbols[old(l)..l]
      ensures var n := Select(v, Next(symbols, old(l)));
        (r.Some? <==> n != 0 && Rhs(n) != []) &&
        (r.None? ==> Skipped() && rules == old(rules) + (if n != 0 then [n] else [])) &&
        (r.Some? ==>
          Derived(r.value, v) && Fits(r.value, Rhs(n)) &&
          |rules| > |old(rules)| && rules[|old(rules)|] == n)
      ensures var n := Select(v, Next(symbols, old(l)));
        r.Some? && Rhs(n)[0].Terminal? ==> r.value.children[0] == Leaf(symbols[old(l)])
      decreases |symbols| - l, Rank(v), 2
    {
      var u := Lookahead();
      var n := Select(v, u);
      if n == 0 {
        return None;
      }
      rules := rules + [n];
      if Rhs(n) == [] {
        return None;
      }
      var t := Expand(v, n, Applicable(Choices(v), u));
      r := Some(t);
    }

    /** The non-ε case of a parsing method: rule n's right-hand side becomes the children of v's node. */
    method Expand(v: Variable, n: nat, ghost i: nat) returns (t: Tree)
      requires Valid() && i < |Choices(v)| && n == Choices(v)[i] && Rhs(n) != []
      requires var u := Next(symbols, l); u.Some? && u.value in Lookaheads(n)
      modifies this
      ensures Valid() && Advanced()
      ensures Frontier(t) == symbols[old(l)..l]
      ensures Derived(t, v) && Fits(t, Rhs(n))
      ensures Rhs(n)[0].Terminal? ==> t.children[0] == Leaf(symbols[old(l)])
      decreases |symbols| - l, Rank(v), 1
    {
      var items := Rhs(n);
      RuleDescends(v, i);
      if items[0].Variable? {
        LowerRankedAt(items, Rank(v), 0);
      }
      var children := Derive(items, Rank(v));
      t := Tree(NonTerminal(Tag(v)), children);
      DerivedByMember(t, Choices(v), i);
    }

    /**
     * Works through a right-hand side in order: each terminal is matched, each
     * variable parsed, and each result becomes the next child slot.
     */
    method Derive(items: seq<Item>, ghost rank: nat) returns (children: seq<Tree>)
      requires Valid() && Descends(items, rank, Next(symbols, l))
      modifies this
      ensures Valid() && Advanced()
      ensures FrontierOf(children) == symbols[old(l)..l]
      ensures |children| == |items|
      ensures forall k :: 0 <= k < |items| ==> Slot(children[k], items[k])
      ensures items != [] && items[0].Terminal? && Next(symbols, old(l)) == Some(items[0].unit) ==>
        children[0] == Leaf(symbols[old(l)])
      decreases |symbols| - l, rank, 0
    {
      ghost var l0 := l;
      children := [];
      var i := 0;
      while i < |items|
        invariant i <= |items| && Valid() && Advanced()
        invariant |children| == i && FrontierOf(children) == symbols[l0..l]
        invariant forall k :: 0 <= k < i ==> Slot(children[k], items[k])
        invariant 0 < i && items[0].Terminal? && Next(symbols, l0) == Some(items[0].unit) ==>
          l0 < l && children[0] == Leaf(symbols[l0])
      {
        ghost var li := l;
        var x: Option<Tree>;
        if items[i].Terminal? {
          x := Match(items[i].unit);
        } else {
          x := Production(items[i].v);
        }
        FrontierPush(symbols, children, x, l0, li, l);
        SlotsPush(children, items, OrAbsent(x));
        children := children + [OrAbsent(x)];
        i := i + 1;
      }
    }
  }
}
