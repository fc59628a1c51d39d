// Line and column tracking of the generated scanner (src/Lexer.java:615-667).
// Before matching a token, the scanner walks the text of the previous match
// and advances its line and column counters; "\r\n" counts as one line break,
// also when the '\r' ends one match and the '\n' starts the next.
module LineCounting {
  import opened Symbols

  /** The terminators other than '\r' and '\n': VT, FF, NEL, LS and PS. */
  predicate IsOtherTerminator(c: char)
  {
    c == '\U{000B}' || c == '\U{000C}' || c == '\U{0085}' || c == '\U{2028}' || c == '\U{2029}'
  }

  /** Any of the seven characters that end a line. */
  predicate IsTerminator(c: char)
  {
    IsOtherTerminator(c) || c == '\r' || c == '\n'
  }

  /** Character.charCount: code points above the BMP take two UTF-16 units. */
  function CharCount(c: char): (n: nat)
    ensures n == 1 || n == 2
  {
    if c as int >= 0x1_0000 then 2 else 1
  }

  /** The counters: line, column and `zzR` (the previous character was '\r'). */
  datatype Position = Position(line: int, column: int, afterCr: bool)

  /** The effect of one code point on the counters (the switch of yylex). */
  function Step(p: Position, c: char): Position
  {
    if IsOtherTerminator(c) then Position(p.line + 1, 0, false)
    else if c == '\r' then Position(p.line + 1, 0, true)
    else if c == '\n' then
      if p.afterCr then Position(p.line, p.column, false) else Position(p.line + 1, 0, false)
    else Position(p.line, p.column + CharCount(c), false)
  }

  /** The counters after walking `text` from `p`. */
  function Scan(p: Position, text: seq<char>): Position
    decreases |text|
  {
    if text == [] then p else Scan(Step(p, text[0]), text[1..])
  }

  /**
   * The line after a match: when the match ends in '\r' and the next
   * character is '\n', that line break is left to the next match (the peek).
   */
  function LineAfter(p: Position, text: seq<char>, next: Option<char>): int
  {
    var q := Scan(p, text);
    if q.afterCr && next == Some('\n') then q.line - 1 else q.line
  }

  /** Reference count of line breaks: "\r\n" is one break, each other terminator one. */
  function Breaks(s: seq<char>): nat
    decreases |s|
  {
    if s == [] then 0
    else if |s| >= 2 && s[0] == '\r' && s[1] == '\n' then 1 + Breaks(s[2..])
    else if IsTerminator(s[0]) then 1 + Breaks(s[1..])
    else Breaks(s[1..])
  }

  /** Number of UTF-16 units of a text. */
  function Units(s: seq<char>): nat
    decreases |s|
  {
    if s == [] then 0 else CharCount(s[0]) + Units(s[1..])
  }

  /**
   * The scan counts the reference breaks, except a leading '\n' that
   * completes a '\r' already counted; `afterCr` ends true exactly when the
   * text ends in '\r'.
   */
  lemma {:induction false} ScanLines(p: Position, text: seq<char>)
    ensures Scan(p, text).line
      == p.line + Breaks(text) - (if p.afterCr && text != [] && text[0] == '\n' then 1 else 0)
    ensures Scan(p, text).afterCr == if text == [] then p.afterCr else text[|text| - 1] == '\r'
    decreases |text|
  {
    if text != [] {
      var c := text[0];
      var rest := text[1..];
      ScanLines(Step(p, c), rest);
      if rest != [] {
        assert text[|text| - 1] == rest[|rest| - 1];
      }
      if c == '\r' && rest != [] && rest[0] == '\n' {
        assert rest[1..] == text[2..];
      }
    }
  }

  /** Where no terminator occurs, the column advances by the text's UTF-16 length. */
  lemma {:induction false} ScanColumns(p: Position, text: seq<char>)
    requires forall k :: 0 <= k < |text| ==> !IsTerminator(text[k])
    ensures Scan(p, text).line == p.line
    ensures Scan(p, text).column == p.column + Units(text)
    decreases |text|
  {
    if text != [] {
      ScanColumns(Step(p, text[0]), text[1..]);
    }
  }

  /** After a terminator the column restarts from the text that follows the last one. */
  lemma {:induction false} ScanColumnRestarts(p: Position, text: seq<char>, k: nat)
    requires p.afterCr ==> p.column == 0
    requires k < |text| && IsTerminator(text[k])
    requires forall m :: k < m < |text| ==> !IsTerminator(text[m])
    ensures Scan(p, text).column == Units(text[k + 1..])
    decreases |text|
  {
    if k == 0 {
      ScanColumns(Step(p, text[0]), text[1..]);
    } else {
      ScanColumnRestarts(Step(p, text[0]), text[1..], k - 1);
      assert text[1..][k..] == text[k + 1..];
    }
  }

  /** Reference breaks of a concatenation: a "\r\n" across the seam is one break. */
  lemma {:induction false} BreaksAppend(t: seq<char>, u: seq<char>)
    ensures Breaks(t + u)
      == Breaks(t) + Breaks(u) - (if t != [] && t[|t| - 1] == '\r' && u != [] && u[0] == '\n' then 1 else 0)
    decreases |t|
  {
    if t == [] {
      assert t + u == u;
    } else if |t| >= 2 && t[0] == '\r' && t[1] == '\n' {
      assert (t + u)[2..] == t[2..] + u;
      BreaksAppend(t[2..], u);
      if |t| > 2 {
        assert t[|t| - 1] == t[2..][|t| - 3];
      }
    } else if |t| == 1 {
      assert (t + u)[1..] == u;
    } else {
      assert (t + u)[1..] == t[1..] + u;
      BreaksAppend(t[1..], u);
      assert t[|t| - 1] == t[1..][|t| - 2];
    }
  }

  /**
   * The peek makes consecutive matches agree with one scan of their joined
   * text: the lines counted for `t` (given the first character of `u`) plus
   * the breaks of `u`, scanned from a fresh `zzR`, are the breaks of `t + u`.
   */
  lemma TokensAgree(p: Position, t: seq<char>, u: seq<char>)
    requires !p.afterCr
    ensures LineAfter(p, t, if u == [] then None else Some(u[0])) + Breaks(u) == p.line + Breaks(t + u)
  {
    ScanLines(p, t);
    BreaksAppend(t, u);
  }
}
