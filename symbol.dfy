// Tokens and tree labels (src/Symbol.java). The LexicalUnit enumeration is
// recovered from its uses: LexicalUnit.java is not part of this model.
module Symbols {
  import opened Strings

  datatype Option<T> = None | Some(value: T)

  /** The lexical categories of the teaching language. */
  datatype LexicalUnit =
    | VARNAME | NUMBER
    | BEG | END | SEMICOLON | ASSIGN | LEFT_PARENTHESIS | RIGHT_PARENTHESIS
    | MINUS | PLUS | TIMES | DIVIDE
    | IF | THEN | ENDIF | ELSE
    | NOT | AND | OR
    | EQUAL | GREATER_EQUAL | GREATER | SMALLER_EQUAL | SMALLER | DIFFERENT
    | WHILE | DO | ENDWHILE | FOR | FROM | BY | TO
    | PRINT | READ
    | END_OF_STREAM

  /** The `Object value` of a symbol: null, a String or an Integer. */
  datatype Value = Null | Str(s: string) | Int(n: int)

  const UNDEFINED_POSITION: int := -1

  /**
   * A symbol: a terminal when `unit` is present, a non-terminal (a grammar tag
   * such as "<Program>" carried in `value`) when it is absent.
   */
  datatype Symbol = Symbol(unit: Option<LexicalUnit>, value: Value, line: int, column: int)
  {
    predicate IsTerminal() { unit.Some? }
    predicate IsNonTerminal() { unit.None? }
  }

  /** The four-argument constructor: the stored line is one more than the given one. */
  function NewSymbol(unit: Option<LexicalUnit>, line: int, column: int, value: Value): Symbol
  {
    Symbol(unit, value, line + 1, column)
  }

  /** Constructor without a value. */
  function SymbolAt(unit: Option<LexicalUnit>, line: int, column: int): Symbol
  {
    NewSymbol(unit, line, column, Null)
  }

  /** Constructor with a line only: the column is undefined. */
  function SymbolOnLine(unit: Option<LexicalUnit>, line: int): Symbol
  {
    NewSymbol(unit, line, UNDEFINED_POSITION, Null)
  }

  /** Constructor with the unit only: stored line 0 (undefined + 1), column -1. */
  function SymbolOf(unit: Option<LexicalUnit>): Symbol
  {
    NewSymbol(unit, UNDEFINED_POSITION, UNDEFINED_POSITION, Null)
  }

  /** Constructor with a unit and a value, no position. */
  function SymbolWithValue(unit: Option<LexicalUnit>, value: Value): Symbol
  {
    NewSymbol(unit, UNDEFINED_POSITION, UNDEFINED_POSITION, value)
  }

  /** The label of a non-terminal node, e.g. NonTerminal("<Cond>"). */
  function NonTerminal(tag: string): (s: Symbol)
    ensures s.IsNonTerminal() && s.value == Str(tag)
  {
    SymbolWithValue(None, Str(tag))
  }

  /** Java's toString of the value, "null" for a missing one. */
  function ValueString(v: Value): string
  {
    match v
    case Null => "null"
    case Str(s) => s
    case Int(n) => IntToString(n)
  }

  /** The enum constant's name, as Java's Enum.toString prints it. */
  function UnitName(u: LexicalUnit): (name: string)
    ensures |name| >= 2
  {
    match u
    case VARNAME => "VARNAME"
    case NUMBER => "NUMBER"
    case BEG => "BEG"
    case END => "END"
    case SEMICOLON => "SEMICOLON"
    case ASSIGN => "ASSIGN"
    case LEFT_PARENTHESIS => "LEFT_PARENTHESIS"
    case RIGHT_PARENTHESIS => "RIGHT_PARENTHESIS"
    case MINUS => "MINUS"
    case PLUS => "PLUS"
    case TIMES => "TIMES"
    case DIVIDE => "DIVIDE"
    case IF => "IF"
    case THEN => "THEN"
    case ENDIF => "ENDIF"
    case ELSE => "ELSE"
    case NOT => "NOT"
    case AND => "AND"
    case OR => "OR"
    case EQUAL => "EQUAL"
    case GREATER_EQUAL => "GREATER_EQUAL"
    case GREATER => "GREATER"
    case SMALLER_EQUAL => "SMALLER_EQUAL"
    case SMALLER => "SMALLER"
    case DIFFERENT => "DIFFERENT"
    case WHILE => "WHILE"
    case DO => "DO"
    case ENDWHILE => "ENDWHILE"
    case FOR => "FOR"
    case FROM => "FROM"
    case BY => "BY"
    case TO => "TO"
    case PRINT => "PRINT"
    case READ => "READ"
    case END_OF_STREAM => "END_OF_STREAM"
  }

  const TokenPrefix: string := "token: "
  const UnitSeparator: string := "\tlexical unit: "
  const NonTerminalText: string := "Non-terminal symbol"

  /** The printable form of a symbol. */
  function ToString(s: Symbol): (r: string)
    ensures s.IsNonTerminal() ==> r == NonTerminalText
    ensures s.IsTerminal() ==>
      r == TokenPrefix + ValueString(s.value) + UnitSeparator + UnitName(s.unit.value)
  {
    if s.IsTerminal() then TokenPrefix + ValueString(s.value) + UnitSeparator + UnitName(s.unit.value)
    else NonTerminalText
  }

  /** Terminals and non-terminals print differently, and a terminal's text names its unit. */
  lemma ToStringDistinguishes(s: Symbol, t: Symbol)
    requires s.IsTerminal() && t.IsNonTerminal()
    ensures ToString(s) != ToString(t)
    ensures ToString(s)[..|TokenPrefix|] == TokenPrefix
  {
    var r := ToString(s);
    assert r[..|TokenPrefix|] == TokenPrefix;
    assert NonTerminalText[..|TokenPrefix|] != TokenPrefix by {
      assert NonTerminalText[0] != TokenPrefix[0];
    }
  }
}
