// The hand-written parts of the scanner (src/Lexer.java:307-343, 561-584)
// and the position bookkeeping of its generated loop (615-667): the table of
// identifiers, which the scanner fills while it reads and prints sorted at
// the end of input, the pushback of matched characters, and line counting.
// The generated DFA itself is left to the tables in LexerTables.
module Lexers {
  import opened Strings
  import opened Symbols
  import opened LineCounting

  /** The name an identifier carries: its String value. */
  function Name(s: Symbol): string
  {
    if s.value.Str? then s.value.s else ""
  }

  /** `a` comes no later than `b` under String.compareTo on their names. */
  predicate Le(a: Symbol, b: Symbol)
  {
    CompareTo(Name(a), Name(b)) <= 0
  }

  /** Adjacent entries from index `lo` on are in compareTo order. */
  predicate SortedFrom(s: seq<Symbol>, lo: nat)
  {
    forall k :: lo <= k && k + 1 < |s| ==> Le(s[k], s[k + 1])
  }

  predicate Sorted(s: seq<Symbol>)
  {
    SortedFrom(s, 0)
  }

  /** Adjacent order gives order between any two entries. */
  lemma {:induction false} SortedPairwise(s: seq<Symbol>, i: nat, j: nat)
    requires Sorted(s) && i <= j < |s|
    ensures Le(s[i], s[j])
    decreases j - i
  {
    if i == j {
      CompareToZero(Name(s[i]), Name(s[j]));
    } else {
      SortedPairwise(s, i + 1, j);
      CompareToTransitive(Name(s[i]), Name(s[i + 1]), Name(s[j]));
    }
  }

  /**
   * The bubble sort's progress: the entries from `m` on are in order and no
   * entry before `m` comes after any entry from `m` on.
   */
  predicate Settled(s: seq<Symbol>, m: nat)
  {
    SortedFrom(s, m) && forall a, b :: 0 <= a < m <= b < |s| ==> Le(s[a], s[b])
  }

  /** The names held in a table. */
  function NamesOf(s: seq<Symbol>): set<string>
  {
    set x | x in s :: Name(x)
  }

  /** No name occurs twice: there are as many distinct names as entries. */
  predicate DistinctNames(s: seq<Symbol>)
  {
    |NamesOf(s)| == |s|
  }

  /** A rearranged table holds the same names. */
  lemma SameNames(s: seq<Symbol>, t: seq<Symbol>)
    requires multiset(s) == multiset(t)
    ensures NamesOf(s) == NamesOf(t) && |s| == |t|
  {
    assert forall x :: x in s <==> x in multiset(s);
    assert forall x :: x in t <==> x in multiset(t);
  }

  /** Appending an entry adds its name. */
  lemma NamesAppend(s: seq<Symbol>, x: Symbol)
    ensures NamesOf(s + [x]) == NamesOf(s) + {Name(x)}
  {
    assert forall y :: y in s + [x] <==> y in s || y == x;
  }

  /** Exchanging two neighbours keeps the entries. */
  lemma SwapKeeps(t: seq<Symbol>, i: nat)
    requires i + 1 < |t|
    ensures multiset(t[i := t[i + 1]][i + 1 := t[i]]) == multiset(t)
  {
    var u := t[i := t[i + 1]][i + 1 := t[i]];
    assert t == t[..i] + [t[i], t[i + 1]] + t[i + 2..];
    assert u == t[..i] + [t[i + 1], t[i]] + t[i + 2..];
  }

  /** What one pass of the bubble sort knows when it reaches index `i`. */
  predicate InPass(s: seq<Symbol>, t: seq<Symbol>, i: nat, m: nat, sorted: bool)
  {
    |t| == |s| && m <= |t| && (|t| == 0 || i < |t|) &&
    Settled(t, m) &&
    (i < |t| ==> forall k :: 0 <= k < i ==> Le(t[k], t[i])) &&
    (0 < m && m - 1 <= i ==> forall k :: 0 <= k < m - 1 ==> Le(t[k], t[m - 1])) &&
    (sorted ==> t == s && forall k :: 0 <= k < i && k + 1 < |s| ==> Le(s[k], s[k + 1])) &&
    (!sorted ==> !Sorted(s))
  }

  /** A pair out of order lies before the settled part and is exchanged. */
  lemma PassSwap(s: seq<Symbol>, t: seq<Symbol>, i: nat, m: nat, sorted: bool)
    requires InPass(s, t, i, m, sorted) && i + 1 < |t|
    requires CompareTo(Name(t[i]), Name(t[i + 1])) > 0
    ensures i + 1 < m
    ensures InPass(s, t[i := t[i + 1]][i + 1 := t[i]], i + 1, m, false)
  {
    var u := t[i := t[i + 1]][i + 1 := t[i]];
    var a, b := t[i], t[i + 1];
    assert m <= i + 1 ==> Le(a, b);
    CompareToFlip(Name(t[i]), Name(t[i + 1]));
    assert Le(u[i], u[i + 1]);
    assert forall k :: 0 <= k < i + 1 ==> Le(u[k], u[i + 1]);
    assert Settled(u, m) by {
      assert forall k :: m <= k < |u| ==> u[k] == t[k];
      assert forall a :: 0 <= a < m ==> u[a] in {t[a], t[i], t[i + 1]};
    }
    if sorted {
      assert !Le(s[i], s[i + 1]);
    }
  }

  /** A pair in order is left alone, and the running maximum moves on. */
  lemma PassKeep(s: seq<Symbol>, t: seq<Symbol>, i: nat, m: nat, sorted: bool)
    requires InPass(s, t, i, m, sorted) && i + 1 < |t|
    requires CompareTo(Name(t[i]), Name(t[i + 1])) <= 0
    ensures InPass(s, t, i + 1, m, sorted)
  {
    forall k | 0 <= k < i + 1
      ensures Le(t[k], t[i + 1])
    {
      if k < i {
        CompareToTransitive(Name(t[k]), Name(t[i]), Name(t[i + 1]));
      }
    }
  }

  /** At the end of a pass one more entry is settled, and no exchange means sorted. */
  lemma PassEnd(s: seq<Symbol>, t: seq<Symbol>, i: nat, m: nat, sorted: bool)
    requires InPass(s, t, i, m, sorted) && i + 1 >= |t|
    requires Settled(s, m)
    ensures Settled(t, if m > 0 then m - 1 else 0)
    ensures sorted <==> Sorted(s)
    ensures sorted ==> t == s
  {
    if m > 0 {
      assert forall a, b :: 0 <= a < m - 1 <= b < |t| ==> Le(t[a], t[b]) by {
        forall a, b | 0 <= a < m - 1 <= b < |t|
          ensures Le(t[a], t[b])
        {
          if b >= m {
            assert a < m;
          }
        }
      }
    }
  }

  /**
   * One sweep of sortIdentifiers: exchanges neighbours out of order from
   * left to right; `sorted` stays true exactly when no exchange was needed.
   */
  method Pass(s: seq<Symbol>, ghost m: nat) returns (t: seq<Symbol>, sorted: bool)
    requires m <= |s| && Settled(s, m)
    ensures multiset(t) == multiset(s)
    ensures Settled(t, if m > 0 then m - 1 else 0)
    ensures sorted <==> Sorted(s)
    ensures sorted ==> t == s
  {
    t := s;
    sorted := true;
    var i := 0;
    while i + 1 < |t|
      invariant InPass(s, t, i, m, sorted)
      invariant multiset(t) == multiset(s)
      decreases |t| - i
    {
      if CompareTo(Name(t[i]), Name(t[i + 1])) > 0 {
        PassSwap(s, t, i, m, sorted);
        SwapKeeps(t, i);
        t := t[i := t[i + 1]][i + 1 := t[i]];
        sorted := false;
      } else {
        PassKeep(s, t, i, m, sorted);
      }
      i := i + 1;
    }
    PassEnd(s, t, i, m, sorted);
  }

  /** One printed line of the end-of-input report: the name, a tab and the line. */
  function Entry(s: Symbol): string
  {
    ValueString(s.value) + "\t" + IntToString(s.line)
  }

  /** The report lines of the first `k` entries of a table, in table order. */
  function Listing(s: seq<Symbol>, k: nat): seq<string>
    requires k <= |s|
    decreases k
  {
    if k == 0 then [] else Listing(s, k - 1) + [Entry(s[k - 1])]
  }

  /** The first println of the report: an empty line, then the title. */
  const Header: string := "\nIdentifiers"

  /** The scanner's state: its identifier table and its position counters. */
  class Lexer {
    var identifiers: seq<Symbol>
    var yyline: int
    var yycolumn: int
    var zzStartRead: int
    var zzMarkedPos: int
    var zzEOFDone: bool

    /** Identifiers are VARNAME symbols with String values and distinct names. */
    ghost predicate Valid()
      reads this
    {
      (forall x :: x in identifiers ==> x.unit == Some(VARNAME) && x.value.Str?) &&
      DistinctNames(identifiers) &&
      0 <= zzStartRead <= zzMarkedPos
    }

    /** A scanner at the start of its input, with an empty table. */
    constructor ()
      ensures Valid()
      ensures identifiers == [] && !zzEOFDone
      ensures yyline == 0 && yycolumn == 0 && zzStartRead == 0 && zzMarkedPos == 0
    {
      identifiers := [];
      yyline := 0;
      yycolumn := 0;
      zzStartRead := 0;
      zzMarkedPos := 0;
      zzEOFDone := false;
    }

    /** sortIdentifiers: bubble sort of the table by name, until a sweep exchanges nothing. */
    method SortIdentifiers()
      requires Valid()
      modifies this`identifiers
      ensures Valid()
      ensures Sorted(identifiers)
      ensures multiset(identifiers) == multiset(old(identifiers))
    {
      var sorted := false;
      ghost var m: nat := |identifiers|;
      while !sorted
        invariant m <= |identifiers| && Settled(identifiers, m)
        invariant multiset(identifiers) == multiset(old(identifiers))
        invariant sorted ==> Sorted(identifiers)
        decreases if sorted then 0 else m + 1
      {
        identifiers, sorted := Pass(identifiers, m);
        m := if m > 0 then m - 1 else 0;
      }
      SameNames(identifiers, old(identifiers));
      assert forall x :: x in identifiers ==> x in multiset(old(identifiers));
    }

    /** alreadyInIdentifiers: some entry's name compares equal to `varname`. */
    method AlreadyInIdentifiers(varname: string) returns (found: bool)
      ensures found <==> exists k :: 0 <= k < |identifiers| && CompareTo(Name(identifiers[k]), varname) == 0
      ensures found <==> varname in NamesOf(identifiers)
    {
      var k := 0;
      while k < |identifiers|
        invariant k <= |identifiers|
        invariant forall j :: 0 <= j < k ==> CompareTo(Name(identifiers[j]), varname) != 0
        decreases |identifiers| - k
      {
        if CompareTo(Name(identifiers[k]), varname) == 0 {
          CompareToZero(Name(identifiers[k]), varname);
          return true;
        }
        k := k + 1;
      }
      forall x | x in identifiers
        ensures Name(x) != varname
      {
        var j :| 0 <= j < |identifiers| && identifiers[j] == x;
        CompareToZero(Name(x), varname);
      }
      return false;
    }

    /**
     * analyze: builds the symbol of a matched token (which the scanner
     * prints) and records a variable name the table does not hold yet.
     */
    method Analyze(unit: LexicalUnit, token: string) returns (symbol: Symbol)
      requires Valid()
      modifies this`identifiers
      ensures Valid()
      ensures symbol == NewSymbol(Some(unit), yyline, yycolumn, Str(token))
      ensures identifiers
        == old(identifiers) + (if unit == VARNAME && token !in NamesOf(old(identifiers)) then [symbol] else [])
      ensures token in NamesOf(identifiers) <==> token in NamesOf(old(identifiers)) || unit == VARNAME
    {
      symbol := NewSymbol(Some(unit), yyline, yycolumn, Str(token));
      if symbol.unit == Some(VARNAME) {
        var present := AlreadyInIdentifiers(token);
        if !present {
          NamesAppend(identifiers, symbol);
          identifiers := identifiers + [symbol];
        }
      }
    }

    /** zzDoEOF: the first time only, sorts the table and returns the report it prints. */
    method DoEof() returns (output: seq<string>)
      requires Valid()
      modifies this`identifiers, this`zzEOFDone
      ensures Valid() && zzEOFDone
      ensures old(zzEOFDone) ==> output == [] && identifiers == old(identifiers)
      ensures !old(zzEOFDone) ==> Sorted(identifiers) && multiset(identifiers) == multiset(old(identifiers))
      ensures !old(zzEOFDone) ==> output == [Header] + Listing(identifiers, |identifiers|)
    {
      output := [];
      if !zzEOFDone {
        zzEOFDone := true;
        SortIdentifiers();
        output := [Header] + Listing(identifiers, |identifiers|);
      }
    }

    /** yylength: the number of characters of the current match. */
    function Length(): int
      reads this
    {
      zzMarkedPos - zzStartRead
    }

    /**
     * yypushback: gives back the last `number` characters of the match; more
     * than the match holds is the scanner error ZZ_PUSHBACK_2BIG.
     */
    method Pushback(number: int) returns (tooBig: bool)
      requires Valid()
      modifies this`zzMarkedPos
      ensures Valid()
      ensures tooBig <==> number > old(Length())
      ensures tooBig ==> zzMarkedPos == old(zzMarkedPos)
      ensures !tooBig ==> zzMarkedPos == old(zzMarkedPos) - number && Length() == old(Length()) - number
    {
      if number > Length() {
        return true;
      }
      zzMarkedPos := zzMarkedPos - number;
      return false;
    }

    /**
     * The walk of yylex over the previous match: advances the line and column
     * counters over `text`, then takes back a '\r' line break when the next
     * character (`next`, None at the end of input) is '\n'.
     */
    method CountPositions(text: seq<char>, next: Option<char>)
      modifies this`yyline, this`yycolumn
      ensures yyline == LineAfter(Position(old(yyline), old(yycolumn), false), text, next)
      ensures yycolumn == Scan(Position(old(yyline), old(yycolumn), false), text).column
      ensures yyline >= old(yyline)
    {
      ghost var start := Position(yyline, yycolumn, false);
      var zzR := false;
      var i := 0;
      while i < |text|
        invariant i <= |text|
        invariant Scan(Position(yyline, yycolumn, zzR), text[i..]) == Scan(start, text)
        decreases |text| - i
      {
        var c := text[i];
        assert text[i..][1..] == text[i + 1..];
        if IsOtherTerminator(c) {
          yyline := yyline + 1;
          yycolumn := 0;
          zzR := false;
        } else if c == '\r' {
          yyline := yyline + 1;
          yycolumn := 0;
          zzR := true;
        } else if c == '\n' {
          if zzR {
            zzR := false;
          } else {
            yyline := yyline + 1;
            yycolumn := 0;
          }
        } else {
          zzR := false;
          yycolumn := yycolumn + CharCount(c);
        }
        i := i + 1;
      }
      if zzR && next == Some('\n') {
        yyline := yyline - 1;
      }
      LineNeverDecreases(start, text, next);
    }
  }

  /** The take-back only ever cancels a break the walk counted. */
  lemma LineNeverDecreases(p: Position, text: seq<char>, next: Option<char>)
    requires !p.afterCr
    ensures LineAfter(p, text, next) >= p.line
  {
    ScanLines(p, text);
    if text != [] && text[|text| - 1] == '\r' {
      BreaksAppend(text[..|text| - 1], ['\r']);
      assert text[..|text| - 1] + ['\r'] == text;
    }
  }
}
