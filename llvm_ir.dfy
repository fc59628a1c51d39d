// The LLVM IR lines the code generator writes (src/Compiler.java), as
// structured values with their exact text, and the bookkeeping over line
// sequences that its properties are stated with: registers defined and
// used, labels defined and branched to, variables allocated.
module LlvmIr {
  import opened Strings

  /** An instruction operand: an integer literal or an unnamed register. */
  datatype Operand = Imm(value: int) | Reg(register: nat)

  /** The kinds of label the generator places, one family per construct. */
  datatype LabelKind =
    | IfCode | ElseCode | EndIf
    | WhileCond | WhileCode | EndWhile
    | ForCond | ForCode | EndFor

  datatype Label = Label(kind: LabelKind, index: nat)

  /** The binary instructions `operation` emits, by their LLVM mnemonic. */
  datatype Opcode =
    | Add | Sub | Mul | SDiv | And | Or
    | IcmpEq | IcmpNe | IcmpSgt | IcmpSge | IcmpSlt | IcmpSle

  function OpcodeText(o: Opcode): string
  {
    match o
    case Add => "add"
    case Sub => "sub"
    case Mul => "mul"
    case SDiv => "sdiv"
    case And => "and"
    case Or => "or"
    case IcmpEq => "icmp eq"
    case IcmpNe => "icmp ne"
    case IcmpSgt => "icmp sgt"
    case IcmpSge => "icmp sge"
    case IcmpSlt => "icmp slt"
    case IcmpSle => "icmp sle"
  }

  datatype Line =
    | Begin                                    // runtime helpers and the head of @main
    | Blank                                    // the empty line after each instruction
    | Alloca(name: string)
    | ReadInt(dst: nat)
    | Store(src: Operand, name: string)
    | Load(dst: nat, name: string)
    | Println(printed: nat)
    | Op(dst: nat, opcode: Opcode, width: nat, left: Operand, right: Operand)
    | Negate(dst: nat, operand: Operand)        // `not x` as `sub i1 1, x`
    | CondBr(cond: nat, ifTrue: Label, ifFalse: Label)
    | Br(target: Label)
    | Mark(place: Label)
    | End

  function Prefix(kind: LabelKind): string
  {
    match kind
    case IfCode => "ifCode"
    case ElseCode => "elseCode"
    case EndIf => "endif"
    case WhileCond => "whileCond"
    case WhileCode => "whileCode"
    case EndWhile => "endwhile"
    case ForCond => "forCond"
    case ForCode => "forCode"
    case EndFor => "endfor"
  }

  /** A label's name: its family's prefix followed by the construct's index. */
  function LabelName(l: Label): string
  {
    Prefix(l.kind) + NatToString(l.index)
  }

  function OperandText(o: Operand): string
  {
    match o
    case Imm(v) => IntToString(v)
    case Reg(r) => "%" + NatToString(r)
  }

  function RegText(r: nat): string
  {
    "%" + NatToString(r)
  }

  /** The head of @main; the runtime helper definitions written before it are not reproduced. */
  const MainHead: string := "define i32 @main() {\nentry:\n"

  /** The text written for a line. */
  function Text(line: Line): string
  {
    match line
    case Begin => MainHead
    case Blank => ""
    case Alloca(name) => "%" + name + " = alloca i32"
    case ReadInt(dst) => RegText(dst) + " = call i32 @readInt()"
    case Store(src, name) => "store i32 " + OperandText(src) + ", i32* %" + name
    case Load(dst, name) => RegText(dst) + " = load i32, i32* %" + name
    case Println(src) => "call void @println(i32 " + RegText(src) + ")"
    case Op(dst, opcode, width, a, b) =>
      RegText(dst) + " = " + OpcodeText(opcode) + " i" + NatToString(width) + " " + OperandText(a) + ", " + OperandText(b)
    case Negate(dst, a) => RegText(dst) + " = sub i1 1, " + OperandText(a)
    case CondBr(c, t, f) =>
      "\nbr i1 " + RegText(c) + ", label %" + LabelName(t) + ", label %" + LabelName(f)
    case Br(t) => "br label %" + LabelName(t)
    case Mark(l) => LabelName(l) + ":"
    case End => "ret i32 0;\n}"
  }

  function Listing(lines: seq<Line>): seq<string>
  {
    if lines == [] then [] else [Text(lines[0])] + Listing(lines[1..])
  }

  predicate NoDigits(s: string)
  {
    forall i :: 0 <= i < |s| ==> !('0' <= s[i] <= '9')
  }

  predicate AllDigits(s: string)
  {
    forall i :: 0 <= i < |s| ==> '0' <= s[i] <= '9'
  }

  /** Number of characters before the first digit. */
  function LeadingNonDigits(s: string): nat
  {
    if s == [] || '0' <= s[0] <= '9' then 0 else 1 + LeadingNonDigits(s[1..])
  }

  lemma {:induction false} LeadingOf(p: string, d: string)
    requires NoDigits(p) && AllDigits(d) && |d| > 0
    ensures LeadingNonDigits(p + d) == |p|
    decreases |p|
  {
    if p == [] {
      assert p + d == d;
    } else {
      assert (p + d)[1..] == p[1..] + d;
      LeadingOf(p[1..], d);
    }
  }

  /** A digit-free prefix followed by a non-empty digit string splits one way only. */
  lemma SplitUnique(p1: string, d1: string, p2: string, d2: string)
    requires NoDigits(p1) && NoDigits(p2) && AllDigits(d1) && AllDigits(d2)
    requires |d1| > 0 && |d2| > 0 && p1 + d1 == p2 + d2
    ensures p1 == p2 && d1 == d2
  {
    LeadingOf(p1, d1);
    LeadingOf(p2, d2);
    assert p1 == (p1 + d1)[..|p1|] && p2 == (p2 + d2)[..|p2|];
    assert d1 == (p1 + d1)[|p1|..] && d2 == (p2 + d2)[|p2|..];
  }

  lemma PrefixInjective(a: LabelKind, b: LabelKind)
    requires Prefix(a) == Prefix(b)
    ensures a == b
  {
  }

  lemma NatToStringInjective(a: nat, b: nat)
    requires NatToString(a) == NatToString(b)
    ensures a == b
  {
    ParseNatToString(a);
    ParseNatToString(b);
  }

  /** Distinct labels have distinct names, so distinct label lines have distinct text. */
  lemma LabelNameInjective(a: Label, b: Label)
    ensures LabelName(a) == LabelName(b) <==> a == b
  {
    if LabelName(a) == LabelName(b) {
      var pa, pb := Prefix(a.kind), Prefix(b.kind);
      assert NoDigits(pa) && NoDigits(pb) by {
        match a.kind
        case IfCode | ElseCode | EndIf | WhileCond | WhileCode | EndWhile | ForCond | ForCode | EndFor =>
        match b.kind
        case IfCode | ElseCode | EndIf | WhileCond | WhileCode | EndWhile | ForCond | ForCode | EndFor =>
      }
      SplitUnique(pa, NatToString(a.index), pb, NatToString(b.index));
      PrefixInjective(a.kind, b.kind);
      NatToStringInjective(a.index, b.index);
    }
  }

  // Registers.

  /** Whether a line defines a register (held in its `dst`). */
  predicate Defines(line: Line)
  {
    line.ReadInt? || line.Load? || line.Op? || line.Negate?
  }

  /** An operand that is a register names one in [lo, hi). */
  predicate OperandIn(o: Operand, lo: nat, hi: nat)
  {
    o.Reg? ==> lo <= o.register < hi
  }

  /** Every register the line reads is in [lo, hi). */
  predicate ReadsIn(line: Line, lo: nat, hi: nat)
  {
    match line
    case Store(src, _) => OperandIn(src, lo, hi)
    case Println(r) => lo <= r < hi
    case Op(_, _, _, a, b) => OperandIn(a, lo, hi) && OperandIn(b, lo, hi)
    case Negate(_, a) => OperandIn(a, lo, hi)
    case CondBr(c, _, _) => lo <= c < hi
    case _ => true
  }

  /**
   * With registers lo, ..., next - 1 already defined, the lines define
   * next, next + 1, ..., hi - 1 in that order, and each reads only
   * registers from lo on that are defined before it.
   */
  predicate Runs(lines: seq<Line>, lo: nat, next: nat, hi: nat)
  {
    RunsFrom(lines, 0, lo, next, hi)
  }

  /** Runs of the lines from the k-th on. */
  predicate RunsFrom(lines: seq<Line>, k: nat, lo: nat, next: nat, hi: nat)
    requires k <= |lines|
    decreases |lines| - k
  {
    if k == |lines| then next == hi
    else
      ReadsIn(lines[k], lo, next) &&
      if Defines(lines[k]) then lines[k].dst == next && RunsFrom(lines, k + 1, lo, next + 1, hi)
      else RunsFrom(lines, k + 1, lo, next, hi)
  }

  lemma {:induction false} RunsFromOrdered(lines: seq<Line>, k: nat, lo: nat, next: nat, hi: nat)
    requires k <= |lines| && RunsFrom(lines, k, lo, next, hi)
    ensures next <= hi
    decreases |lines| - k
  {
    if k < |lines| {
      if Defines(lines[k]) {
        RunsFromOrdered(lines, k + 1, lo, next + 1, hi);
      } else {
        RunsFromOrdered(lines, k + 1, lo, next, hi);
      }
    }
  }

  lemma RunsOrdered(lines: seq<Line>, lo: nat, next: nat, hi: nat)
    requires Runs(lines, lo, next, hi)
    ensures next <= hi
  {
    RunsFromOrdered(lines, 0, lo, next, hi);
  }

  lemma {:induction false} RunsFromLower(lines: seq<Line>, k: nat, lo: nat, lo2: nat, next: nat, hi: nat)
    requires k <= |lines| && RunsFrom(lines, k, lo2, next, hi) && lo <= lo2
    ensures RunsFrom(lines, k, lo, next, hi)
    decreases |lines| - k
  {
    if k < |lines| {
      if Defines(lines[k]) {
        RunsFromLower(lines, k + 1, lo, lo2, next + 1, hi);
      } else {
        RunsFromLower(lines, k + 1, lo, lo2, next, hi);
      }
    }
  }

  /** Reading from a lower register on is still allowed. */
  lemma RunsLower(lines: seq<Line>, lo: nat, lo2: nat, next: nat, hi: nat)
    requires Runs(lines, lo2, next, hi) && lo <= lo2
    ensures Runs(lines, lo, next, hi)
  {
    RunsFromLower(lines, 0, lo, lo2, next, hi);
  }

  /** The lines of b, read from inside a + b. */
  lemma {:induction false} RunsFromShift(a: seq<Line>, b: seq<Line>, k: nat, lo: nat, next: nat, hi: nat)
    requires k <= |b| && RunsFrom(b, k, lo, next, hi)
    ensures RunsFrom(a + b, |a| + k, lo, next, hi)
    decreases |b| - k
  {
    if k < |b| {
      assert (a + b)[|a| + k] == b[k];
      if Defines(b[k]) {
        RunsFromShift(a, b, k + 1, lo, next + 1, hi);
      } else {
        RunsFromShift(a, b, k + 1, lo, next, hi);
      }
    }
  }

  lemma {:induction false} RunsFromAppend(a: seq<Line>, b: seq<Line>, k: nat, lo: nat, next: nat, mid: nat, hi: nat)
    requires k <= |a| && RunsFrom(a, k, lo, next, mid) && Runs(b, lo, mid, hi)
    ensures RunsFrom(a + b, k, lo, next, hi)
    decreases |a| - k
  {
    if k == |a| {
      RunsFromShift(a, b, 0, lo, mid, hi);
    } else {
      assert (a + b)[k] == a[k];
      if Defines(a[k]) {
        RunsFromAppend(a, b, k + 1, lo, next + 1, mid, hi);
      } else {
        RunsFromAppend(a, b, k + 1, lo, next, mid, hi);
      }
    }
  }

  /** Two runs in a row make one. */
  lemma RunsAppend(a: seq<Line>, b: seq<Line>, lo: nat, next: nat, mid: nat, hi: nat)
    requires Runs(a, lo, next, mid) && Runs(b, lo, mid, hi)
    ensures Runs(a + b, lo, next, hi)
  {
    RunsFromAppend(a, b, 0, lo, next, mid, hi);
  }

  // Labels.

  /** The labels placed by a sequence of lines, in order. */
  function Marks(lines: seq<Line>): seq<Label>
  {
    MarksFrom(lines, 0)
  }

  function MarksFrom(lines: seq<Line>, k: nat): seq<Label>
    requires k <= |lines|
    decreases |lines| - k
  {
    if k == |lines| then []
    else (if lines[k].Mark? then [lines[k].place] else []) + MarksFrom(lines, k + 1)
  }

  /** The labels a line branches to. */
  function Targets(line: Line): set<Label>
  {
    match line
    case CondBr(_, t, f) => {t, f}
    case Br(t) => {t}
    case _ => {}
  }

  /** The labels a sequence of lines branches to. */
  function AllTargets(lines: seq<Line>): set<Label>
  {
    TargetsFrom(lines, 0)
  }

  function TargetsFrom(lines: seq<Line>, k: nat): set<Label>
    requires k <= |lines|
    decreases |lines| - k
  {
    if k == |lines| then {} else Targets(lines[k]) + TargetsFrom(lines, k + 1)
  }

  lemma {:induction false} MarksFromShift(a: seq<Line>, b: seq<Line>, k: nat)
    requires k <= |b|
    ensures MarksFrom(a + b, |a| + k) == MarksFrom(b, k)
    decreases |b| - k
  {
    if k < |b| {
      assert (a + b)[|a| + k] == b[k];
      MarksFromShift(a, b, k + 1);
    }
  }

  lemma {:induction false} MarksFromAppend(a: seq<Line>, b: seq<Line>, k: nat)
    requires k <= |a|
    ensures MarksFrom(a + b, k) == MarksFrom(a, k) + Marks(b)
    decreases |a| - k
  {
    if k == |a| {
      MarksFromShift(a, b, 0);
    } else {
      assert (a + b)[k] == a[k];
      MarksFromAppend(a, b, k + 1);
      var head := if a[k].Mark? then [a[k].place] else [];
      assert head + (MarksFrom(a, k + 1) + Marks(b)) == (head + MarksFrom(a, k + 1)) + Marks(b);
    }
  }

  lemma MarksAppend(a: seq<Line>, b: seq<Line>)
    ensures Marks(a + b) == Marks(a) + Marks(b)
  {
    MarksFromAppend(a, b, 0);
  }

  lemma {:induction false} TargetsFromShift(a: seq<Line>, b: seq<Line>, k: nat)
    requires k <= |b|
    ensures TargetsFrom(a + b, |a| + k) == TargetsFrom(b, k)
    decreases |b| - k
  {
    if k < |b| {
      assert (a + b)[|a| + k] == b[k];
      TargetsFromShift(a, b, k + 1);
    }
  }

  lemma {:induction false} TargetsFromAppend(a: seq<Line>, b: seq<Line>, k: nat)
    requires k <= |a|
    ensures TargetsFrom(a + b, k) == TargetsFrom(a, k) + AllTargets(b)
    decreases |a| - k
  {
    if k == |a| {
      TargetsFromShift(a, b, 0);
    } else {
      assert (a + b)[k] == a[k];
      TargetsFromAppend(a, b, k + 1);
    }
  }

  lemma AllTargetsAppend(a: seq<Line>, b: seq<Line>)
    ensures AllTargets(a + b) == AllTargets(a) + AllTargets(b)
  {
    TargetsFromAppend(a, b, 0);
  }

  // Variables.

  /** The variables allocated by a sequence of lines, in order. */
  function Allocas(lines: seq<Line>): seq<string>
  {
    AllocasFrom(lines, 0)
  }

  function AllocasFrom(lines: seq<Line>, k: nat): seq<string>
    requires k <= |lines|
    decreases |lines| - k
  {
    if k == |lines| then []
    else (if lines[k].Alloca? then [lines[k].name] else []) + AllocasFrom(lines, k + 1)
  }

  lemma {:induction false} AllocasFromShift(a: seq<Line>, b: seq<Line>, k: nat)
    requires k <= |b|
    ensures AllocasFrom(a + b, |a| + k) == AllocasFrom(b, k)
    decreases |b| - k
  {
    if k < |b| {
      assert (a + b)[|a| + k] == b[k];
      AllocasFromShift(a, b, k + 1);
    }
  }

  lemma {:induction false} AllocasFromAppend(a: seq<Line>, b: seq<Line>, k: nat)
    requires k <= |a|
    ensures AllocasFrom(a + b, k) == AllocasFrom(a, k) + Allocas(b)
    decreases |a| - k
  {
    if k == |a| {
      AllocasFromShift(a, b, 0);
    } else {
      assert (a + b)[k] == a[k];
      AllocasFromAppend(a, b, k + 1);
      var head := if a[k].Alloca? then [a[k].name] else [];
      assert head + (AllocasFrom(a, k + 1) + Allocas(b)) == (head + AllocasFrom(a, k + 1)) + Allocas(b);
    }
  }

  lemma AllocasAppend(a: seq<Line>, b: seq<Line>)
    ensures Allocas(a + b) == Allocas(a) + Allocas(b)
  {
    AllocasFromAppend(a, b, 0);
  }

  predicate NoDuplicates<T(==)>(s: seq<T>)
  {
    forall i, j :: 0 <= i < j < |s| ==> s[i] != s[j]
  }
}
