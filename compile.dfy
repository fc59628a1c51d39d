// A whole compilation: a fresh `Compiler` run over a program, with what
// CompilerRegisters, CompilerLabels and CompilerVariables prove of the
// lowering carried over to the lines it writes.
module Compilation {
  import opened Trees
  import opened LlvmIr
  import opened CompilerSpec
  import opened CompilerRegisters
  import opened CompilerLabels
  import opened CompilerVariables
  import opened Compilers

  /**
   * A fresh compiler run over a whole program. What it writes is the
   * program's lowering; its unnamed registers are defined in order and
   * read only once defined; no label is placed twice and every branch
   * target is placed; every store goes to a variable allocated before it,
   * and none is allocated twice.
   */
  method Compile(ast: Tree) returns (lines: seq<Line>)
    requires Compilable(ast)
    ensures lines == ProgramGen(ast).lines
    ensures Threaded(lines, 0, ProgramGen(ast).state.unnamedVar)
    ensures NoDuplicates(Marks(lines))
    ensures forall l :: l in AllTargets(lines) ==> Mark(l) in lines
    ensures Declared(lines, []) && NoDuplicates(Allocas(lines))
  {
    var c := new Compiler();
    c.Program(ast);
    lines := c.out;
    ProgramThreaded(ast);
    ProgramLabelled(ast);
    ProgramVars(ast);
  }
}
